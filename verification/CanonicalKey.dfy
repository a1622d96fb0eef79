/** The key under which the browser shares subscriptions: a canonical printing of target and parameters. */
module CanonicalKey {
  import opened JsonText

  /** What a parameter object may hold. A number is the text it prints as; objects list members in insertion order. */
  datatype Tree = Undefined | Null | Bool(value: bool) | Number(digits: string) | Text(text: string)
                | Array(items: seq<Tree>) | Object(members: seq<Member>)
  datatype Member = Member(key: string, tree: Tree)

  // ---- Sorting keys ----

  predicate Before(a: string, b: string) {
    if b == [] then false
    else if a == [] then true
    else a[0] < b[0] || (a[0] == b[0] && Before(a[1..], b[1..]))
  }

  type Pair = (string, string)

  function Insert(p: Pair, sorted: seq<Pair>): seq<Pair> {
    if sorted == [] then [p]
    else if Before(sorted[0].0, p.0) then [sorted[0]] + Insert(p, sorted[1..])
    else [p] + sorted
  }

  function Sort(pairs: seq<Pair>): seq<Pair> {
    if pairs == [] then [] else Insert(pairs[|pairs| - 1], Sort(pairs[..|pairs| - 1]))
  }

  /** Property names that are array indices: canonical decimals below 2^32 - 1. */
  predicate IsIndex(k: string) {
    && 0 < |k| <= 10 && (forall i :: 0 <= i < |k| ==> '0' <= k[i] <= '9') && (k[0] == '0' ==> |k| == 1)
    && (|k| == 10 ==> Before(k, "4294967295"))
  }

  predicate IndexBefore(a: string, b: string) { |a| < |b| || (|a| == |b| && Before(a, b)) }

  function InsertIndex(p: Pair, own: seq<Pair>): seq<Pair> {
    if own != [] && IsIndex(own[0].0) && IndexBefore(own[0].0, p.0) then [own[0]] + InsertIndex(p, own[1..])
    else [p] + own
  }

  /** An object filled key by key, in the order its own properties are listed: indices first, then as inserted. */
  function Filled(pairs: seq<Pair>): seq<Pair> {
    if pairs == [] then [] else
    var own, p := Filled(pairs[..|pairs| - 1]), pairs[|pairs| - 1];
    if IsIndex(p.0) then InsertIndex(p, own) else own + [p]
  }

  // ---- Printing ----

  function Members(pairs: seq<Pair>): string {
    if pairs == [] then ['}']
    else Quote(pairs[0].0) + ([':'] + (Quote(pairs[0].1) + MoreMembers(pairs[1..])))
  }

  function MoreMembers(pairs: seq<Pair>): string {
    if pairs == [] then ['}']
    else [','] + (Quote(pairs[0].0) + ([':'] + (Quote(pairs[0].1) + MoreMembers(pairs[1..]))))
  }

  function PrintObject(pairs: seq<Pair>): string { ['{'] + Members(Filled(Sort(pairs))) }

  const PROTO := "__proto__"

  /** Members printed as undefined are left out, and assigning a string to `__proto__` adds no property. */
  predicate Kept(m: Member) { !m.tree.Undefined? && m.key != PROTO }

  function Hash(t: Tree): string
    decreases t
  {
    match t
    case Undefined => []
    case Null => "null"
    case Bool(b) => if b then "true" else "false"
    case Number(digits) => digits
    case Text(s) => Quote(s)
    case Array(items) => ['['] + Items(items)
    case Object(members) => PrintObject(Texts(members))
  }

  /** The elements, joined by commas, and the closing bracket; an undefined element prints as nothing. */
  function Items(items: seq<Tree>): string
    decreases items
  {
    if items == [] then [']'] else Hash(items[0]) + MoreItems(items[1..])
  }

  function MoreItems(items: seq<Tree>): string
    decreases items
  {
    if items == [] then [']'] else [','] + (Hash(items[0]) + MoreItems(items[1..]))
  }

  function Texts(members: seq<Member>): seq<Pair>
    decreases members
  {
    if members == [] then [] else
    (if Kept(members[0]) then [(members[0].key, Hash(members[0].tree))] else []) + Texts(members[1..])
  }

  // ---- What the key can tell apart ----

  datatype Value = VUndefined | VNull | VBool(bool) | VNumber(string) | VText(string)
                 | VArray(elements: seq<Value>) | VObject(fields: map<string, Value>)

  /** Member order does not matter, nor do members left out; an array of one undefined element is an empty one. */
  function Seen(t: Tree): Value
    decreases t
  {
    match t
    case Undefined => VUndefined
    case Null => VNull
    case Bool(b) => VBool(b)
    case Number(digits) => VNumber(digits)
    case Text(s) => VText(s)
    case Array(items) => if items == [Undefined] then VArray([]) else VArray(SeenItems(items))
    case Object(members) => VObject(SeenMembers(members))
  }

  function SeenItems(items: seq<Tree>): seq<Value>
    decreases items
  {
    if items == [] then [] else [Seen(items[0])] + SeenItems(items[1..])
  }

  function SeenMembers(members: seq<Member>): map<string, Value>
    decreases members
  {
    if members == [] then map[] else
    var rest := SeenMembers(members[1..]);
    if Kept(members[0]) then rest[members[0].key := Seen(members[0].tree)] else rest
  }

  predicate IsDigitText(c: char) { '0' <= c <= '9' || c == '-' || c == '+' || c == '.' || c == 'e' }

  predicate IsNumber(s: string) {
    s != [] && (forall i :: 0 <= i < |s| ==> IsDigitText(s[i])) && s[0] != 'e'
  }

  /** Object keys are distinct and numbers print as numbers, as in any JavaScript value without NaN or Infinity. */
  predicate WellFormed(t: Tree)
    decreases t
  {
    match t
    case Number(digits) => IsNumber(digits)
    case Array(items) => forall i :: 0 <= i < |items| ==> WellFormed(items[i])
    case Object(members) =>
      && (forall i :: 0 <= i < |members| ==> WellFormed(members[i].tree))
      && (forall i, j :: 0 <= i < j < |members| ==> members[i].key != members[j].key)
    case _ => true
  }

  // ---- Cutting a printed value off the front of a text ----

  /** What may follow a value inside an array, or at the end. */
  predicate Delimited(r: string) { r == [] || r[0] == ',' || r[0] == ']' }

  /** The first character tells which kind of value follows, and that one does. */
  predicate LeadFits(c: char, t: Tree) {
    match t
    case Undefined => false
    case Null => c == 'n'
    case Bool(b) => c == if b then 't' else 'f'
    case Number(_) => IsDigitText(c) && c != 'e'
    case Text(_) => c == '"'
    case Array(_) => c == '['
    case Object(_) => c == '{'
  }

  lemma HashStart(t: Tree)
    requires WellFormed(t) && !t.Undefined?
    ensures |Hash(t)| > 0 && LeadFits(Hash(t)[0], t) && Hash(t)[0] != ',' && Hash(t)[0] != ']'
  {}

  predicate SameKind(a: Tree, b: Tree) {
    match a
    case Undefined => b.Undefined?
    case Null => b.Null?
    case Bool(v) => b == a
    case Number(_) => b.Number?
    case Text(_) => b.Text?
    case Array(_) => b.Array?
    case Object(_) => b.Object?
  }

  lemma KindIsSeen(a: Tree, b: Tree, ra: string, rb: string)
    requires WellFormed(a) && WellFormed(b) && Delimited(ra) && Delimited(rb) && Hash(a) + ra == Hash(b) + rb
    ensures SameKind(a, b)
  {
    if !a.Undefined? {
      HashStart(a);
      assert (Hash(a) + ra)[0] == Hash(a)[0];
    }
    if !b.Undefined? {
      HashStart(b);
      assert (Hash(b) + rb)[0] == Hash(b)[0];
    }
    assert a.Undefined? ==> Hash(a) + ra == ra;
    assert b.Undefined? ==> Hash(b) + rb == rb;
  }

  lemma DigitsStop(text: string, m: string, n: string, r: string, r': string)
    requires forall i :: 0 <= i < |m| ==> IsDigitText(m[i])
    requires Delimited(r') && text == m + r && text == n + r'
    ensures |m| <= |n|
  {
    assert forall i :: 0 <= i < |m| ==> IsDigitText(text[i]);
    assert |n| < |text| ==> text[|n|] == r'[0];
  }

  lemma DigitsCancel(m: string, n: string, r: string, r': string)
    requires forall i :: 0 <= i < |m| ==> IsDigitText(m[i])
    requires forall i :: 0 <= i < |n| ==> IsDigitText(n[i])
    requires Delimited(r) && Delimited(r') && m + r == n + r'
    ensures m == n && r == r'
  {
    DigitsStop(m + r, m, n, r, r');
    DigitsStop(m + r, n, m, r', r);
    assert m == (m + r)[..|m|] && n == (n + r')[..|n|];
    assert r == (m + r)[|m|..] && r' == (n + r')[|n|..];
  }

  lemma SuffixCancels(x: string, r: string, r': string)
    requires x + r == x + r'
    ensures r == r'
  {
    assert r == (x + r)[|x|..] && r' == (x + r')[|x|..];
  }

  lemma BracketCancels(c: char, x: string, y: string, r: string, r': string)
    requires ([c] + x) + r == ([c] + y) + r'
    ensures x + r == y + r'
  {
    assert (([c] + x) + r)[1..] == x + r && (([c] + y) + r')[1..] == y + r';
  }

  // ---- Objects: the printed pairs are the pairs ----

  lemma PairCancels(p: Pair, q: Pair, r: string, r': string)
    requires Quote(p.0) + ([':'] + (Quote(p.1) + r)) == Quote(q.0) + ([':'] + (Quote(q.1) + r'))
    ensures p == q && r == r'
  {
    QuoteCancels(p.0, q.0, [':'] + (Quote(p.1) + r), [':'] + (Quote(q.1) + r'));
    SuffixCancels([':'], Quote(p.1) + r, Quote(q.1) + r');
    QuoteCancels(p.1, q.1, r, r');
  }

  lemma MoreMembersStart(p: seq<Pair>, r: string)
    ensures |MoreMembers(p) + r| > 0 && ((MoreMembers(p) + r)[0] == '}' <==> p == [])
    ensures p == [] ==> (MoreMembers(p) + r)[1..] == r
    ensures p != [] ==> (MoreMembers(p) + r)[1..]
                        == Quote(p[0].0) + ([':'] + (Quote(p[0].1) + (MoreMembers(p[1..]) + r)))
  {
    if p != [] {
      var x, y, z := Quote(p[0].0), Quote(p[0].1), MoreMembers(p[1..]);
      assert ([','] + (x + ([':'] + (y + z)))) + r == [','] + (x + ([':'] + (y + (z + r))));
    }
  }

  lemma {:induction false} MoreMembersCancel(p: seq<Pair>, q: seq<Pair>, r: string, r': string)
    requires MoreMembers(p) + r == MoreMembers(q) + r'
    ensures p == q && r == r'
    decreases |p|
  {
    MoreMembersStart(p, r);
    MoreMembersStart(q, r');
    if p == [] {
    } else {
      PairCancels(p[0], q[0], MoreMembers(p[1..]) + r, MoreMembers(q[1..]) + r');
      MoreMembersCancel(p[1..], q[1..], r, r');
      assert p == [p[0]] + p[1..] && q == [q[0]] + q[1..];
    }
  }

  lemma MembersStart(p: seq<Pair>, r: string)
    ensures |Members(p) + r| > 0 && ((Members(p) + r)[0] == '}' <==> p == [])
    ensures p == [] ==> (Members(p) + r)[1..] == r
    ensures p != [] ==> Members(p) + r == Quote(p[0].0) + ([':'] + (Quote(p[0].1) + (MoreMembers(p[1..]) + r)))
  {}

  lemma MembersCancel(p: seq<Pair>, q: seq<Pair>, r: string, r': string)
    requires Members(p) + r == Members(q) + r'
    ensures p == q && r == r'
  {
    MembersStart(p, r);
    MembersStart(q, r');
    if p != [] {
      PairCancels(p[0], q[0], MoreMembers(p[1..]) + r, MoreMembers(q[1..]) + r');
      MoreMembersCancel(p[1..], q[1..], r, r');
      assert p == [p[0]] + p[1..] && q == [q[0]] + q[1..];
    }
  }

  lemma {:induction false} InsertMembers(p: Pair, sorted: seq<Pair>)
    ensures forall x :: x in Insert(p, sorted) <==> x == p || x in sorted
  {
    if sorted == [] {
    } else {
      InsertMembers(p, sorted[1..]);
      assert sorted == [sorted[0]] + sorted[1..];
    }
  }

  lemma {:induction false} SortMembers(pairs: seq<Pair>)
    ensures forall x :: x in Sort(pairs) <==> x in pairs
  {
    if pairs == [] {
    } else {
      SortMembers(pairs[..|pairs| - 1]);
      InsertMembers(pairs[|pairs| - 1], Sort(pairs[..|pairs| - 1]));
      assert pairs == pairs[..|pairs| - 1] + [pairs[|pairs| - 1]];
    }
  }

  lemma {:induction false} InsertIndexMembers(p: Pair, own: seq<Pair>)
    ensures forall x :: x in InsertIndex(p, own) <==> x == p || x in own
  {
    if own == [] {
    } else {
      InsertIndexMembers(p, own[1..]);
      assert own == [own[0]] + own[1..];
    }
  }

  lemma {:induction false} FilledMembers(pairs: seq<Pair>)
    ensures forall x :: x in Filled(pairs) <==> x in pairs
  {
    if pairs == [] {
    } else {
      FilledMembers(pairs[..|pairs| - 1]);
      InsertIndexMembers(pairs[|pairs| - 1], Filled(pairs[..|pairs| - 1]));
      assert pairs == pairs[..|pairs| - 1] + [pairs[|pairs| - 1]];
    }
  }

  lemma ListedMembers(p: seq<Pair>, x: Pair)
    ensures x in Filled(Sort(p)) <==> x in p
  {
    SortMembers(p);
    FilledMembers(Sort(p));
  }

  lemma PrintCancels(f: seq<Pair>, g: seq<Pair>, r: string, r': string)
    requires (['{'] + Members(f)) + r == (['{'] + Members(g)) + r'
    ensures f == g && r == r'
  {
    BracketCancels('{', Members(f), Members(g), r, r');
    MembersCancel(f, g, r, r');
  }

  /** Equal printed objects have the same members. */
  lemma ObjectCancels(p: seq<Pair>, q: seq<Pair>, r: string, r': string)
    requires PrintObject(p) + r == PrintObject(q) + r'
    ensures (forall x :: x in p <==> x in q) && r == r'
  {
    PrintCancels(Filled(Sort(p)), Filled(Sort(q)), r, r');
    forall x ensures x in p <==> x in q {
      ListedMembers(p, x);
      ListedMembers(q, x);
    }
  }

  lemma {:induction false} TextsMembers(members: seq<Member>, x: Pair)
    ensures x in Texts(members) <==> exists m :: m in members && Kept(m) && x == (m.key, Hash(m.tree))
  {
    if members == [] {
    } else {
      TextsMembers(members[1..], x);
      assert members == [members[0]] + members[1..];
    }
  }

  predicate DistinctKeys(members: seq<Member>) {
    forall i, j :: 0 <= i < j < |members| ==> members[i].key != members[j].key
  }

  lemma {:induction false} SeenLookup(members: seq<Member>, k: string)
    requires DistinctKeys(members)
    ensures k in SeenMembers(members) <==> exists m :: m in members && Kept(m) && m.key == k
    ensures forall m :: m in members && Kept(m) && m.key == k ==>
              k in SeenMembers(members) && SeenMembers(members)[k] == Seen(m.tree)
  {
    if members == [] {
    } else {
      SeenLookup(members[1..], k);
      assert members == [members[0]] + members[1..];
    }
  }

  // ---- Equal texts come from equal values ----

  /** A value's text, followed by a delimiter or nothing, determines the value and what follows. */
  lemma {:induction false} HashCancels(a: Tree, b: Tree, ra: string, rb: string)
    requires WellFormed(a) && WellFormed(b) && Delimited(ra) && Delimited(rb) && Hash(a) + ra == Hash(b) + rb
    ensures Seen(a) == Seen(b) && ra == rb
    decreases a
  {
    KindIsSeen(a, b, ra, rb);
    match a
    case Undefined => assert Hash(a) + ra == ra && Hash(b) + rb == rb;
    case Null => SuffixCancels(Hash(a), ra, rb);
    case Bool(_) => SuffixCancels(Hash(a), ra, rb);
    case Number(digits) => DigitsCancel(digits, b.digits, ra, rb);
    case Text(s) => QuoteCancels(s, b.text, ra, rb);
    case Array(items) =>
      BracketCancels('[', Items(items), Items(b.items), ra, rb);
      ItemsCancel(items, b.items, ra, rb);
    case Object(members) =>
      ObjectCancels(Texts(members), Texts(b.members), ra, rb);
      MembersAgree(members, b.members);
  }

  predicate AllWellFormed(items: seq<Tree>) { forall i :: 0 <= i < |items| ==> WellFormed(items[i]) }

  lemma MoreItemsStart(items: seq<Tree>, r: string)
    ensures |MoreItems(items) + r| > 0 && Delimited(MoreItems(items) + r)
    ensures (MoreItems(items) + r)[0] == ']' <==> items == []
    ensures items == [] ==> (MoreItems(items) + r)[1..] == r
    ensures items != [] ==> (MoreItems(items) + r)[1..] == Hash(items[0]) + (MoreItems(items[1..]) + r)
  {}

  lemma {:induction false} MoreItemsCancel(x: seq<Tree>, y: seq<Tree>, r: string, r': string)
    requires AllWellFormed(x) && AllWellFormed(y) && MoreItems(x) + r == MoreItems(y) + r'
    ensures SeenItems(x) == SeenItems(y) && r == r'
    decreases x
  {
    MoreItemsStart(x, r);
    MoreItemsStart(y, r');
    if x == [] {
    } else {
      MoreItemsStart(x[1..], r);
      MoreItemsStart(y[1..], r');
      HashCancels(x[0], y[0], MoreItems(x[1..]) + r, MoreItems(y[1..]) + r');
      MoreItemsCancel(x[1..], y[1..], r, r');
    }
  }

  /** An empty array prints like an array of one undefined element, and like no other. */
  lemma ItemsStart(items: seq<Tree>, r: string)
    requires AllWellFormed(items)
    ensures |Items(items) + r| > 0 && ((Items(items) + r)[0] == ']' <==> items == [] || items == [Undefined])
    ensures items == [] || items == [Undefined] ==> Items(items) + r == [']'] + r
    ensures items != [] ==> Items(items) + r == Hash(items[0]) + (MoreItems(items[1..]) + r)
  {}

  lemma {:induction false} ItemsCancel(x: seq<Tree>, y: seq<Tree>, r: string, r': string)
    requires AllWellFormed(x) && AllWellFormed(y) && Items(x) + r == Items(y) + r'
    ensures Seen(Array(x)) == Seen(Array(y)) && r == r'
    decreases x, 0
  {
    ItemsStart(x, r);
    ItemsStart(y, r');
    if x == [] || x == [Undefined] {
      SuffixCancels([']'], r, r');
    } else {
      MoreItemsStart(x[1..], r);
      MoreItemsStart(y[1..], r');
      HashCancels(x[0], y[0], MoreItems(x[1..]) + r, MoreItems(y[1..]) + r');
      MoreItemsCancel(x[1..], y[1..], r, r');
    }
  }

  /** Members printed alike are members seen alike. */
  lemma {:induction false} MembersAgree(a: seq<Member>, b: seq<Member>)
    requires WellFormed(Object(a)) && WellFormed(Object(b)) && forall x :: x in Texts(a) <==> x in Texts(b)
    ensures SeenMembers(a) == SeenMembers(b)
    decreases a, 1
  {
    forall k ensures k in SeenMembers(a) <==> k in SeenMembers(b) {
      KeyAgrees(a, b, k);
      KeyAgrees(b, a, k);
    }
    forall k | k in SeenMembers(a) ensures SeenMembers(a)[k] == SeenMembers(b)[k] {
      ValueAgrees(a, b, k);
    }
  }

  lemma KeyAgrees(a: seq<Member>, b: seq<Member>, k: string)
    requires DistinctKeys(a) && DistinctKeys(b) && forall x :: x in Texts(a) ==> x in Texts(b)
    ensures k in SeenMembers(a) ==> k in SeenMembers(b)
  {
    SeenLookup(a, k);
    SeenLookup(b, k);
    if k in SeenMembers(a) {
      var m :| m in a && Kept(m) && m.key == k;
      TextsMembers(a, (k, Hash(m.tree)));
      TextsMembers(b, (k, Hash(m.tree)));
    }
  }

  lemma {:induction false} ValueAgrees(a: seq<Member>, b: seq<Member>, k: string)
    requires WellFormed(Object(a)) && WellFormed(Object(b)) && forall x :: x in Texts(a) ==> x in Texts(b)
    requires k in SeenMembers(a) && k in SeenMembers(b)
    ensures SeenMembers(a)[k] == SeenMembers(b)[k]
    decreases a, 0
  {
    SeenLookup(a, k);
    SeenLookup(b, k);
    var i :| 0 <= i < |a| && Kept(a[i]) && a[i].key == k;
    TextsMembers(a, (k, Hash(a[i].tree)));
    TextsMembers(b, (k, Hash(a[i].tree)));
    var n :| n in b && Kept(n) && n.key == k && Hash(n.tree) == Hash(a[i].tree);
    assert Hash(n.tree) + [] == Hash(n.tree) && Hash(a[i].tree) + [] == Hash(a[i].tree);
    HashCancels(a[i].tree, n.tree, [], []);
  }

  // ---- Equal values have equal texts: sorting forgets the insertion order ----

  lemma {:induction false} BeforeIsIrreflexive(a: string)
    ensures !Before(a, a)
  {
    if a == [] {
    } else {
      BeforeIsIrreflexive(a[1..]);
    }
  }

  lemma {:induction false} BeforeIsTransitive(a: string, b: string, c: string)
    requires Before(a, b) && Before(b, c)
    ensures Before(a, c)
  {
    if a != [] && a[0] == b[0] && b[0] == c[0] {
      BeforeIsTransitive(a[1..], b[1..], c[1..]);
    }
  }

  lemma {:induction false} BeforeIsTotal(a: string, b: string)
    ensures a == b || Before(a, b) || Before(b, a)
  {
    if a != [] && b != [] && a[0] == b[0] {
      BeforeIsTotal(a[1..], b[1..]);
      assert a == [a[0]] + a[1..] && b == [b[0]] + b[1..];
    }
  }

  predicate Sorted(ps: seq<Pair>) { forall i, j :: 0 <= i < j < |ps| ==> Before(ps[i].0, ps[j].0) }

  predicate DistinctPairs(ps: seq<Pair>) { forall i, j :: 0 <= i < j < |ps| ==> ps[i].0 != ps[j].0 }

  lemma SortedCons(p: Pair, ps: seq<Pair>)
    requires Sorted(ps) && forall x :: x in ps ==> Before(p.0, x.0)
    ensures Sorted([p] + ps)
  {}

  lemma {:induction false} InsertSorts(p: Pair, ps: seq<Pair>)
    requires Sorted(ps) && forall x :: x in ps ==> x.0 != p.0
    ensures Sorted(Insert(p, ps))
  {
    if ps == [] {
    } else {
      assert ps == [ps[0]] + ps[1..];
      if Before(ps[0].0, p.0) {
        InsertSorts(p, ps[1..]);
        InsertMembers(p, ps[1..]);
        SortedCons(ps[0], Insert(p, ps[1..]));
      } else {
        BeforeIsTotal(ps[0].0, p.0);
        forall x | x in ps ensures Before(p.0, x.0) {
          var i :| 0 <= i < |ps| && ps[i] == x;
          if i > 0 {
            BeforeIsTransitive(p.0, ps[0].0, x.0);
          }
        }
        SortedCons(p, ps);
      }
    }
  }

  lemma {:induction false} SortSorts(ps: seq<Pair>)
    requires DistinctPairs(ps)
    ensures Sorted(Sort(ps))
  {
    if ps == [] {
    } else {
      SortSorts(ps[..|ps| - 1]);
      SortMembers(ps[..|ps| - 1]);
      InsertSorts(ps[|ps| - 1], Sort(ps[..|ps| - 1]));
    }
  }

  lemma SortedHeads(x: seq<Pair>, y: seq<Pair>)
    requires Sorted(x) && Sorted(y) && x != [] && y != [] && x[0] in y && y[0] in x
    ensures x[0] == y[0]
  {
    var j :| 0 <= j < |y| && y[j] == x[0];
    var i :| 0 <= i < |x| && x[i] == y[0];
    BeforeIsIrreflexive(x[0].0);
    if i > 0 {
      assert Before(x[0].0, y[0].0);
      assert j > 0 ==> Before(y[0].0, x[0].0);
      if j > 0 {
        BeforeIsTransitive(x[0].0, y[0].0, x[0].0);
      }
    }
  }

  lemma {:induction false} SortedIsUnique(x: seq<Pair>, y: seq<Pair>)
    requires Sorted(x) && Sorted(y) && forall p :: p in x <==> p in y
    ensures x == y
    decreases |x|
  {
    if x == [] {
      assert forall i :: 0 <= i < |y| ==> y[i] in y;
    } else {
      assert x[0] in x && x[0] in y;
      assert y[0] in y;
      SortedHeads(x, y);
      forall p ensures p in x[1..] <==> p in y[1..] {
        TailMembers(x, p);
        TailMembers(y, p);
      }
      SortedIsUnique(x[1..], y[1..]);
      assert x == [x[0]] + x[1..] && y == [y[0]] + y[1..];
    }
  }

  lemma TailMembers(x: seq<Pair>, p: Pair)
    requires Sorted(x) && x != []
    ensures p in x[1..] <==> p in x && p != x[0]
  {
    BeforeIsIrreflexive(x[0].0);
    assert x == [x[0]] + x[1..];
    assert forall i :: 0 < i < |x| ==> Before(x[0].0, x[i].0);
  }

  lemma {:induction false} TextsAreDistinct(members: seq<Member>)
    requires DistinctKeys(members)
    ensures DistinctPairs(Texts(members))
    ensures forall x :: x in Texts(members) ==> exists m :: m in members && m.key == x.0
  {
    if members == [] {
    } else {
      TextsAreDistinct(members[1..]);
      assert members == [members[0]] + members[1..];
    }
  }

  lemma SameSetSorts(p: seq<Pair>, q: seq<Pair>)
    requires DistinctPairs(p) && DistinctPairs(q) && forall x :: x in p <==> x in q
    ensures Sort(p) == Sort(q)
  {
    SortSorts(p);
    SortSorts(q);
    SortMembers(p);
    SortMembers(q);
    SortedIsUnique(Sort(p), Sort(q));
  }

  lemma {:induction false} SeenAlikePrintsAlike(a: Tree, b: Tree)
    requires WellFormed(a) && WellFormed(b) && Seen(a) == Seen(b)
    ensures Hash(a) == Hash(b)
    decreases a, 1
  {
    match a
    case Array(items) =>
      if items != [Undefined] && b.items != [Undefined] {
        ItemsPrintAlike(items, b.items);
      } else {
        LoneUndefined(items);
        LoneUndefined(b.items);
      }
    case Object(members) =>
      TextsAreDistinct(members);
      TextsAreDistinct(b.members);
      forall x ensures x in Texts(members) <==> x in Texts(b.members) {
        TextMoves(members, b.members, x);
        TextMovesBack(members, b.members, x);
      }
      SameSetSorts(Texts(members), Texts(b.members));
    case _ =>
  }

  lemma LoneUndefined(items: seq<Tree>)
    ensures items == [] || items == [Undefined] ==> Items(items) == [']']
    ensures Seen(Array(items)) == VArray([]) <==> items == [] || items == [Undefined]
  {}

  lemma {:induction false} ItemsPrintAlike(x: seq<Tree>, y: seq<Tree>)
    requires AllWellFormed(x) && AllWellFormed(y) && SeenItems(x) == SeenItems(y)
    ensures Items(x) == Items(y) && MoreItems(x) == MoreItems(y)
    decreases x
  {
    if x == [] {
    } else {
      assert SeenItems(x)[0] == SeenItems(y)[0] && SeenItems(x)[1..] == SeenItems(y)[1..];
      SeenAlikePrintsAlike(x[0], y[0]);
      ItemsPrintAlike(x[1..], y[1..]);
    }
  }

  lemma {:induction false} TextMoves(a: seq<Member>, b: seq<Member>, x: Pair)
    requires WellFormed(Object(a)) && WellFormed(Object(b)) && SeenMembers(a) == SeenMembers(b)
    ensures x in Texts(a) ==> x in Texts(b)
    decreases a, 0
  {
    TextsMembers(a, x);
    TextsMembers(b, x);
    if x in Texts(a) {
      var i :| 0 <= i < |a| && Kept(a[i]) && x == (a[i].key, Hash(a[i].tree));
      SeenLookup(a, x.0);
      SeenLookup(b, x.0);
      var n :| n in b && Kept(n) && n.key == x.0;
      SeenAlikePrintsAlike(a[i].tree, n.tree);
    }
  }

  lemma {:induction false} TextMovesBack(a: seq<Member>, b: seq<Member>, x: Pair)
    requires WellFormed(Object(a)) && WellFormed(Object(b)) && SeenMembers(a) == SeenMembers(b)
    ensures x in Texts(b) ==> x in Texts(a)
    decreases a, 0
  {
    TextsMembers(a, x);
    TextsMembers(b, x);
    if x in Texts(b) {
      var j :| 0 <= j < |b| && Kept(b[j]) && x == (b[j].key, Hash(b[j].tree));
      SeenLookup(a, x.0);
      SeenLookup(b, x.0);
      var i :| 0 <= i < |a| && Kept(a[i]) && a[i].key == x.0;
      SeenAlikePrintsAlike(a[i].tree, b[j].tree);
    }
  }

  // ---- The theorems ----

  /** Two texts are equal exactly when the values are, up to member order and what the printing leaves out. */
  lemma HashIsCanonical(a: Tree, b: Tree)
    requires WellFormed(a) && WellFormed(b)
    ensures Hash(a) == Hash(b) <==> Seen(a) == Seen(b)
  {
    if Hash(a) == Hash(b) {
      assert Hash(a) + [] == Hash(b) + [];
      HashCancels(a, b, [], []);
    }
    if Seen(a) == Seen(b) {
      SeenAlikePrintsAlike(a, b);
    }
  }

  const TARGET := "target"
  const PARAMS := "params"

  function Request(target: string, params: Tree): Tree {
    Object([Member(TARGET, Text(target)), Member(PARAMS, params)])
  }

  /** The key of a subscription: the printed object of its target and parameters. */
  function GetKey(target: string, params: Tree): string { Hash(Request(target, params)) }

  function RequestValue(target: string, params: Value): map<string, Value> {
    if params.VUndefined? then map[TARGET := VText(target)] else map[TARGET := VText(target), PARAMS := params]
  }

  lemma NamesDiffer()
    ensures TARGET != PARAMS && TARGET != PROTO && PARAMS != PROTO
  {}

  lemma RequestSeen(target: string, params: Tree)
    requires WellFormed(params)
    ensures WellFormed(Request(target, params))
    ensures Seen(Request(target, params)) == VObject(RequestValue(target, Seen(params)))
  {
    NamesDiffer();
    var first, second := Member(TARGET, Text(target)), Member(PARAMS, params);
    assert [first, second][1..] == [second] && [second][1..] == [];
    var rest: map<string, Value> := SeenMembers([second]);
    assert SeenMembers([]) == map[];
    assert rest == if params.Undefined? then map[] else map[PARAMS := Seen(params)];
    assert Kept(first) && SeenMembers([first, second]) == rest[TARGET := VText(target)];
    assert rest[TARGET := VText(target)] == RequestValue(target, Seen(params));
  }

  lemma RequestValueIsInjective(t: string, u: string, p: Value, q: Value)
    ensures RequestValue(t, p) == RequestValue(u, q) <==> t == u && p == q
  {
    NamesDiffer();
    var x, y := RequestValue(t, p), RequestValue(u, q);
    assert x[TARGET] == VText(t) && y[TARGET] == VText(u);
    assert PARAMS in x <==> !p.VUndefined?;
    assert PARAMS in y <==> !q.VUndefined?;
    assert PARAMS in x ==> x[PARAMS] == p;
    assert PARAMS in y ==> y[PARAMS] == q;
  }

  /** Subscriptions are shared exactly when targets are equal and parameters are seen alike. */
  lemma KeyIsCanonical(t: string, u: string, p: Tree, q: Tree)
    requires WellFormed(p) && WellFormed(q)
    ensures GetKey(t, p) == GetKey(u, q) <==> t == u && Seen(p) == Seen(q)
  {
    RequestSeen(t, p);
    RequestSeen(u, q);
    HashIsCanonical(Request(t, p), Request(u, q));
    RequestValueIsInjective(t, u, Seen(p), Seen(q));
  }

  /** What the printing loses: a lone undefined element, and a member named `__proto__`. */
  lemma Collisions(m: Member)
    requires m.tree.Undefined? || m.key == PROTO
    ensures Hash(Array([Undefined])) == Hash(Array([]))
    ensures Hash(Object([m])) == Hash(Object([]))
  {
    LoneUndefined([Undefined]);
    assert [m][1..] == [];
  }
}

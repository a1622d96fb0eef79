/**
 * The order in which an object lists its own properties (section 10.1.11 of ECMA-262): array indices by their value, then
 * the other keys as they were inserted. And that this is the order of `CanonicalKey.Filled`.
 */
module PropertyOrder {
  import opened CanonicalKey

  // ---- Decimals ----

  function Power(n: nat): (p: nat)
    ensures p > 0
  {
    if n == 0 then 1 else 10 * Power(n - 1)
  }

  predicate AreDigits(k: string) { forall i :: 0 <= i < |k| ==> '0' <= k[i] <= '9' }

  /** Canonical: no leading zero. */
  predicate IsDecimal(k: string) { k != "" && AreDigits(k) && (k[0] == '0' ==> |k| == 1) }

  function Digit(c: char): nat
    requires '0' <= c <= '9'
  {
    c as int - '0' as int
  }

  function ValueOf(k: string): nat
    requires AreDigits(k)
  {
    if k == "" then 0 else Digit(k[0]) * Power(|k| - 1) + ValueOf(k[1..])
  }

  lemma {:induction false} Multiples(x: nat, y: nat, p: nat)
    requires x < y
    ensures x * p + p <= y * p
  {
    assert y * p == (y - 1) * p + p;
    if x < y - 1 {
      Multiples(x, y - 1, p);
    }
  }

  lemma {:induction false} ValueBounds(k: string)
    requires AreDigits(k)
    ensures ValueOf(k) < Power(|k|)
    ensures k != "" && k[0] != '0' ==> ValueOf(k) >= Power(|k| - 1)
  {
    if k == "" {
    } else {
      ValueBounds(k[1..]);
      var d, p := Digit(k[0]), Power(|k| - 1);
      Multiples(d, 10, p);
      if d > 0 {
        Multiples(0, d, p);
      }
    }
  }

  lemma {:induction false} PowerGrows(m: nat, n: nat)
    requires m <= n
    ensures Power(m) <= Power(n)
    decreases n
  {
    if m < n {
      PowerGrows(m, n - 1);
    }
  }

  lemma {:induction false} BeforeIsLess(a: string, b: string)
    requires AreDigits(a) && AreDigits(b) && |a| == |b|
    ensures Before(a, b) <==> ValueOf(a) < ValueOf(b)
  {
    if a == "" {
    } else {
      var p := Power(|a| - 1);
      BeforeIsLess(a[1..], b[1..]);
      ValueBounds(a[1..]);
      ValueBounds(b[1..]);
      if a[0] < b[0] {
        Multiples(Digit(a[0]), Digit(b[0]), p);
      } else if b[0] < a[0] {
        Multiples(Digit(b[0]), Digit(a[0]), p);
      }
    }
  }

  lemma LongerIsMore(a: string, b: string)
    requires IsDecimal(a) && IsDecimal(b) && |a| < |b|
    ensures ValueOf(a) < ValueOf(b)
  {
    ValueBounds(a);
    ValueBounds(b);
    PowerGrows(|a|, |b| - 1);
  }

  lemma IndexBeforeIsLess(a: string, b: string)
    requires IsDecimal(a) && IsDecimal(b)
    ensures IndexBefore(a, b) <==> ValueOf(a) < ValueOf(b)
  {
    if |a| < |b| {
      LongerIsMore(a, b);
    } else if |b| < |a| {
      LongerIsMore(b, a);
    } else {
      BeforeIsLess(a, b);
    }
  }

  lemma ValueStep(c: char, k: string, n: nat, value: nat)
    requires '0' <= c <= '9' && AreDigits(k) && |k| == n && ValueOf(k) == value
    ensures AreDigits([c] + k) && ValueOf([c] + k) == Digit(c) * Power(n) + value
  {
    assert ([c] + k)[1..] == k;
  }

  lemma Powers()
    ensures Power(1) == 10 && Power(2) == 100 && Power(3) == 1_000 && Power(4) == 10_000 && Power(5) == 100_000
    ensures Power(6) == 1_000_000 && Power(7) == 10_000_000 && Power(8) == 100_000_000 && Power(9) == 1_000_000_000
    ensures Power(10) == 10_000_000_000
  {
    assert Power(1) == 10 && Power(2) == 100;
    assert Power(3) == 1_000 && Power(4) == 10_000;
    assert Power(5) == 100_000 && Power(6) == 1_000_000;
    assert Power(7) == 10_000_000 && Power(8) == 100_000_000;
  }

  lemma LowerDigits()
    ensures AreDigits("67295") && ValueOf("67295") == 67_295
  {
    Powers();
    ValueStep('5', "", 0, 0);
    ValueStep('9', "5", 1, 5);
    ValueStep('2', "95", 2, 95);
    ValueStep('7', "295", 3, 295);
    ValueStep('6', "7295", 4, 7_295);
  }

  lemma MiddleDigits()
    ensures AreDigits("94967295") && ValueOf("94967295") == 94_967_295
  {
    Powers();
    LowerDigits();
    ValueStep('9', "67295", 5, 67_295);
    ValueStep('4', "967295", 6, 967_295);
    ValueStep('9', "4967295", 7, 4_967_295);
  }

  lemma BoundIs()
    ensures IsDecimal("4294967295") && ValueOf("4294967295") == 4_294_967_295
  {
    Powers();
    MiddleDigits();
    ValueStep('2', "94967295", 8, 94_967_295);
    ValueStep('4', "294967295", 9, 294_967_295);
  }

  /** An array index is a canonical decimal below 2^32 - 1. */
  lemma IsIndexIff(k: string)
    ensures IsIndex(k) <==> IsDecimal(k) && ValueOf(k) < 4_294_967_295
  {
    if IsDecimal(k) {
      BoundIs();
      if |k| == 10 {
        BeforeIsLess(k, "4294967295");
      } else if |k| < 10 {
        LongerIsMore(k, "4294967295");
      } else {
        LongerIsMore("4294967295", k);
      }
    }
  }

  // ---- The listing ----

  /** The pairs whose keys are no indices, in their order. */
  function Others(pairs: seq<Pair>): seq<Pair> {
    if pairs == [] then [] else
    Others(pairs[..|pairs| - 1]) + if IsIndex(pairs[|pairs| - 1].0) then [] else [pairs[|pairs| - 1]]
  }

  /** The first n are indices, each with at least the value of the one before, the first with at least `low`. */
  predicate AreAscending(own: seq<Pair>, n: nat, low: nat)
    decreases n
  {
    n <= |own| && (n > 0 ==>
      && IsDecimal(own[0].0) && low <= ValueOf(own[0].0) < 4_294_967_295
      && AreAscending(own[1..], n - 1, ValueOf(own[0].0)))
  }

  predicate AreNoIndices(own: seq<Pair>) { forall i :: 0 <= i < |own| ==> !IsIndex(own[i].0) }

  lemma ConsIsListed(first: Pair, own: seq<Pair>, n: nat, low: nat)
    requires IsIndex(first.0) && AreDigits(first.0) && low <= ValueOf(first.0) && AreAscending(own, n, ValueOf(first.0))
    ensures AreAscending([first] + own, n + 1, low)
    ensures ([first] + own)[n + 1..] == own[n..] && multiset([first] + own) == multiset(own) + multiset{first}
  {
    IsIndexIff(first.0);
    assert ([first] + own)[1..] == own;
  }

  predicate IsListing(own: seq<Pair>, n: nat, low: nat, others: seq<Pair>) {
    AreAscending(own, n, low) && own[n..] == others && AreNoIndices(others)
  }

  /** Where the insertion stops. */
  lemma InsertedFirst(p: Pair, own: seq<Pair>, n: nat, low: nat, others: seq<Pair>)
    requires IsIndex(p.0) && AreDigits(p.0) && low <= ValueOf(p.0) && IsListing(own, n, low, others)
    requires n > 0 ==> !IndexBefore(own[0].0, p.0)
    ensures InsertIndex(p, own) == [p] + own && AreAscending([p] + own, n + 1, low)
  {
    IsIndexIff(p.0);
    if n > 0 {
      IndexBeforeIsLess(own[0].0, p.0);
    } else if own != [] {
      assert own[0] == others[0];
    }
    ConsIsListed(p, own, n, low);
  }

  lemma RestIsListing(own: seq<Pair>, n: nat, low: nat, others: seq<Pair>)
    requires n > 0 && IsListing(own, n, low, others)
    ensures own == [own[0]] + own[1..] && IsIndex(own[0].0) && low <= ValueOf(own[0].0)
    ensures IsListing(own[1..], n - 1, ValueOf(own[0].0), others)
  {
    IsIndexIff(own[0].0);
    assert own[1..][n - 1..] == own[n..];
  }

  lemma {:induction false} InsertedIndex(p: Pair, own: seq<Pair>, n: nat, low: nat, others: seq<Pair>)
    requires IsIndex(p.0) && AreDigits(p.0) && low <= ValueOf(p.0) && IsListing(own, n, low, others)
    ensures IsListing(InsertIndex(p, own), n + 1, low, others)
    ensures multiset(InsertIndex(p, own)) == multiset(own) + multiset{p}
    decreases n
  {
    if n > 0 && IndexBefore(own[0].0, p.0) {
      var first, rest := own[0], own[1..];
      RestIsListing(own, n, low, others);
      IsIndexIff(p.0);
      IndexBeforeIsLess(first.0, p.0);
      InsertedIndex(p, rest, n - 1, ValueOf(first.0), others);
      var tail := InsertIndex(p, rest);
      ConsIsListed(first, tail, n, low);
    } else {
      InsertedFirst(p, own, n, low, others);
      assert ([p] + own)[n + 1..] == own[n..];
    }
  }

  lemma {:induction false} StillAscending(own: seq<Pair>, p: Pair, n: nat, low: nat)
    requires AreAscending(own, n, low)
    ensures AreAscending(own + [p], n, low)
  {
    if n > 0 {
      StillAscending(own[1..], p, n - 1, ValueOf(own[0].0));
      assert (own + [p])[1..] == own[1..] + [p];
    }
  }

  lemma AppendedOther(p: Pair, own: seq<Pair>, n: nat, others: seq<Pair>)
    requires !IsIndex(p.0) && IsListing(own, n, 0, others)
    ensures IsListing(own + [p], n, 0, others + [p])
  {
    StillAscending(own, p, n, 0);
    assert (own + [p])[n..] == own[n..] + [p];
  }

  lemma OthersSnoc(front: seq<Pair>, p: Pair)
    ensures Others(front + [p]) == if IsIndex(p.0) then Others(front) else Others(front) + [p]
    ensures Filled(front + [p]) == if IsIndex(p.0) then InsertIndex(p, Filled(front)) else Filled(front) + [p]
  {
    assert (front + [p])[..|front|] == front && Others(front) + [] == Others(front);
  }

  /** A filled object lists exactly what was put in: indices in the order of their values, then the others as inserted. */
  lemma {:induction false} FilledIsListed(pairs: seq<Pair>) returns (n: nat)
    ensures IsListing(Filled(pairs), n, 0, Others(pairs)) && multiset(Filled(pairs)) == multiset(pairs)
  {
    if pairs == [] {
      n := 0;
    } else {
      var front, p := pairs[..|pairs| - 1], pairs[|pairs| - 1];
      n := FilledIsListed(front);
      assert pairs == front + [p];
      OthersSnoc(front, p);
      if IsIndex(p.0) {
        IsIndexIff(p.0);
        InsertedIndex(p, Filled(front), n, 0, Others(front));
        n := n + 1;
      } else {
        AppendedOther(p, Filled(front), n, Others(front));
      }
    }
  }
}

/** Composite Redis members such as `client_id:sub_id` and `query_hash:sub_id`. */
module CompositeKeys {

  function Composite(prefix: string, suffix: string): string {
    prefix + ":" + suffix
  }

  datatype Split = NoColon | Parts(prefix: string, suffix: string)

  /** Python's `s.rsplit(":", 1)`: cut at the last colon. */
  function RSplit(s: string): (r: Split)
    ensures r.NoColon? <==> ':' !in s
    ensures r.Parts? ==> s == Composite(r.prefix, r.suffix) && ':' !in r.suffix
  {
    if s == "" then NoColon else
    var front, last := s[..|s| - 1], s[|s| - 1];
    assert s == front + [last];
    if last == ':' then Parts(front, "") else
    match RSplit(front)
    case NoColon => NoColon
    case Parts(p, q) => Parts(p, q + [last])
  }

  /** What the cut takes for the owner of a member; the member itself when there is no colon. */
  function Owner(member: string): string {
    match RSplit(member) case NoColon => member case Parts(p, _) => p
  }

  function Suffix(member: string): string {
    match RSplit(member) case NoColon => "" case Parts(_, q) => q
  }

  lemma CutIsUnique(p: string, q: string, p': string, q': string)
    requires Composite(p, q) == Composite(p', q') && ':' !in q && ':' !in q'
    ensures p == p' && q == q'
  {
    var s := Composite(p, q);
    assert s[|p|] == ':' && s[|p'|] == ':';
    assert forall k :: |p| < k < |s| ==> s[k] == q[k - |p| - 1];
    assert forall k :: |p'| < k < |s| ==> s[k] == q'[k - |p'| - 1];
    assert p == s[..|p|] && q == s[|p| + 1..];
    assert p' == s[..|p'|] && q' == s[|p'| + 1..];
  }

  /** Cutting undoes joining exactly when the suffix is free of colons. */
  lemma RSplitUndoesComposite(p: string, q: string)
    ensures RSplit(Composite(p, q)) == Parts(p, q) <==> ':' !in q
  {
    var s := Composite(p, q);
    assert s[|p|] == ':';
    if ':' !in q {
      var r := RSplit(s);
      CutIsUnique(p, q, r.prefix, r.suffix);
    }
  }

  /** A colon in the suffix moves the cut into it: the owner read back has a colon in it. */
  lemma ColonMovesTheCut(p: string, q: string)
    requires ':' in q
    ensures RSplit(Composite(p, q)).Parts? && ':' in Owner(Composite(p, q))
  {
    var s := Composite(p, q);
    assert s[|p|] == ':';
    var r := RSplit(s);
    var i :| 0 <= i < |q| && q[i] == ':';
    assert s[|p| + 1 + i] == ':';
    assert forall k :: |r.prefix| < k < |s| ==> s[k] == r.suffix[k - |r.prefix| - 1];
    assert r.prefix[|p|] == s[|p|];
  }

  /** As strings, members never collide: the part before the first colon is the prefix. */
  lemma CompositeInjective(p: string, q: string, p': string, q': string)
    requires ':' !in p && ':' !in p' && Composite(p, q) == Composite(p', q')
    ensures p == p' && q == q'
  {
    var s := Composite(p, q);
    assert s[|p|] == ':' && s[|p'|] == ':';
    assert forall k :: 0 <= k < |p| ==> s[k] == p[k];
    assert forall k :: 0 <= k < |p'| ==> s[k] == p'[k];
    assert p == s[..|p|] && q == s[|p| + 1..];
    assert p' == s[..|p'|] && q' == s[|p'| + 1..];
  }
}

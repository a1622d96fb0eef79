/** JSON strings as `JSON.stringify` prints them (section 7 of RFC 8259), and why they can be cut apart again. */
module JsonText {

  function HexDigit(n: int): char
    requires 0 <= n < 16
  {
    if n < 10 then '0' + n as char else 'a' + (n - 10) as char
  }

  /** The escape of one character. */
  function Escape(c: char): (e: string)
    ensures |e| > 0 && e[0] != '"'
  {
    if c == '"' then ['\\', '"']
    else if c == '\\' then ['\\', '\\']
    else if c == 8 as char then ['\\', 'b']
    else if c == 12 as char then ['\\', 'f']
    else if c == '\n' then ['\\', 'n']
    else if c == '\r' then ['\\', 'r']
    else if c == '\t' then ['\\', 't']
    else if c < ' ' then ['\\', 'u', '0', '0', HexDigit(c as int / 16), HexDigit(c as int % 16)]
    else [c]
  }

  function Escaped(s: string): string {
    if s == [] then [] else Escape(s[0]) + Escaped(s[1..])
  }

  function Quote(s: string): string { ['"'] + Escaped(s) + ['"'] }

  lemma ControlIsInjective(c: char, d: char)
    requires c < ' ' && d < ' ' && |Escape(c)| == 6 && Escape(c) == Escape(d)
    ensures c == d
  {}

  lemma EscapeIsInjective(c: char, d: char)
    requires Escape(c) <= Escape(d)
    ensures c == d
  {
    var x, y := Escape(c), Escape(d);
    assert x[0] == y[0];
    if |x| == 6 {
      assert x == y;
      ControlIsInjective(c, d);
    } else if |x| == 2 {
      assert x[1] == y[1];
    }
  }

  /** No escape is the beginning of another character's, so the first character can be read off. */
  lemma EscapeCancels(c: char, d: char, r: string, r': string)
    requires Escape(c) + r == Escape(d) + r'
    ensures c == d && r == r'
  {
    var x, y := Escape(c), Escape(d);
    if |x| <= |y| {
      assert x == (x + r)[..|x|] == (y + r')[..|x|] == y[..|x|];
      EscapeIsInjective(c, d);
    } else {
      assert y == (y + r')[..|y|] == (x + r)[..|y|] == x[..|y|];
      EscapeIsInjective(d, c);
    }
    assert r == (x + r)[|x|..] && r' == (y + r')[|y|..];
  }

  function Remaining(s: string, r: string): string { Escaped(s) + (['"'] + r) }

  lemma RemainingStart(s: string, r: string)
    ensures |Remaining(s, r)| > 0 && (Remaining(s, r)[0] == '"' <==> s == [])
    ensures s == [] ==> Remaining(s, r)[1..] == r
    ensures s != [] ==> Remaining(s, r) == Escape(s[0]) + Remaining(s[1..], r)
  {}

  lemma {:induction false} EscapedCancels(s: string, t: string, r: string, r': string)
    requires Remaining(s, r) == Remaining(t, r')
    ensures s == t && r == r'
    decreases |s| + |t|
  {
    RemainingStart(s, r);
    RemainingStart(t, r');
    if s == [] {
    } else {
      EscapeCancels(s[0], t[0], Remaining(s[1..], r), Remaining(t[1..], r'));
      EscapedCancels(s[1..], t[1..], r, r');
      assert s == [s[0]] + s[1..] && t == [t[0]] + t[1..];
    }
  }

  /** A printed string says where it ends and which string it is, whatever follows. */
  lemma QuoteCancels(s: string, t: string, r: string, r': string)
    requires Quote(s) + r == Quote(t) + r'
    ensures s == t && r == r'
  {
    assert (Quote(s) + r)[1..] == Remaining(s, r);
    assert (Quote(t) + r')[1..] == Remaining(t, r');
    EscapedCancels(s, t, r, r');
  }
}

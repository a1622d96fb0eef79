/** A reader of JSON strings (section 7 of RFC 8259), and that it reads back what `JsonText` prints. */
module JsonReading {
  import opened JsonText
  import opened Wrappers

  function HexValue(c: char): Option<int> {
    if '0' <= c <= '9' then Some(c as int - '0' as int)
    else if 'a' <= c <= 'f' then Some(c as int - 'a' as int + 10)
    else if 'A' <= c <= 'F' then Some(c as int - 'A' as int + 10)
    else None
  }

  /** What follows a backslash, if it is not `u`. */
  function ShortEscape(c: char): Option<char> {
    if c == '"' || c == '\\' || c == '/' then Some(c)
    else if c == 'b' then Some(8 as char)
    else if c == 'f' then Some(12 as char)
    else if c == 'n' then Some('\n')
    else if c == 'r' then Some('\r')
    else if c == 't' then Some('\t')
    else None
  }

  /** Four hexadecimal digits; surrogates are not characters here. */
  function LongEscape(digits: string): Option<char>
    requires |digits| == 4
  {
    var a, b, c, d := HexValue(digits[0]), HexValue(digits[1]), HexValue(digits[2]), HexValue(digits[3]);
    if a.None? || b.None? || c.None? || d.None? then None else
    var n := ((a.value * 16 + b.value) * 16 + c.value) * 16 + d.value;
    if 0 <= n < 0xD800 || 0xE000 <= n < 0x10000 then Some(n as char) else None
  }

  /** The string read, and the text after its closing quote. */
  datatype Reading = Bad | Read(s: string, rest: string)

  function Before(c: Option<char>, r: Reading): Reading {
    if c.Some? && r.Read? then Read([c.value] + r.s, r.rest) else Bad
  }

  /** Reads on after the opening quote. */
  function ReadOn(t: string): Reading {
    if t == [] then Bad
    else if t[0] == '"' then Read([], t[1..])
    else if t[0] < ' ' then Bad
    else if t[0] != '\\' then Before(Some(t[0]), ReadOn(t[1..]))
    else if |t| >= 6 && t[1] == 'u' then Before(LongEscape(t[2..6]), ReadOn(t[6..]))
    else if |t| >= 2 then Before(ShortEscape(t[1]), ReadOn(t[2..]))
    else Bad
  }

  function ReadString(t: string): Reading {
    if t != [] && t[0] == '"' then ReadOn(t[1..]) else Bad
  }

  /** Only quotes, backslashes and control characters are escaped, seven of them by two characters. */
  lemma EscapeLength(c: char)
    ensures |Escape(c)| == if c in ['"', '\\', 8 as char, 12 as char, '\n', '\r', '\t'] then 2 else if c < ' ' then 6 else 1
    ensures forall i :: 0 <= i < |Escape(c)| && |Escape(c)| == 6 ==> !('A' <= Escape(c)[i] <= 'F')
  {}

  lemma DigitIsRead(n: int)
    requires 0 <= n < 16
    ensures HexValue(HexDigit(n)) == Some(n) && !('A' <= HexDigit(n) <= 'F')
  {}

  lemma ControlIsRead(c: char)
    requires c < ' ' && |Escape(c)| == 6
    ensures Escape(c)[0] == '\\' && Escape(c)[1] == 'u' && LongEscape(Escape(c)[2..6]) == Some(c)
  {
    DigitIsRead(c as int / 16);
    DigitIsRead(c as int % 16);
    var digits := Escape(c)[2..6];
    assert digits[0] == '0' && digits[1] == '0' && digits[2] == HexDigit(c as int / 16) && digits[3] == HexDigit(c as int % 16);
  }

  lemma EscapeIsRead(c: char, r: string)
    ensures ReadOn(Escape(c) + r) == Before(Some(c), ReadOn(r))
  {
    var e := Escape(c);
    var t := e + r;
    assert t[|e|..] == r;
    if |e| == 6 {
      ControlIsRead(c);
      assert t[2..6] == e[2..6];
    } else if |e| == 2 {
      assert t[0] == e[0] && t[1] == e[1];
    } else {
      assert t[0] == c;
    }
  }

  lemma {:induction false} RemainingIsRead(s: string, r: string)
    ensures ReadOn(Remaining(s, r)) == Read(s, r)
  {
    RemainingStart(s, r);
    if s == [] {
    } else {
      EscapeIsRead(s[0], Remaining(s[1..], r));
      RemainingIsRead(s[1..], r);
      assert s == [s[0]] + s[1..];
    }
  }

  /** Reading what was printed gives the string back, and what follows it. */
  lemma QuoteIsRead(s: string, r: string)
    ensures ReadString(Quote(s) + r) == Read(s, r)
  {
    assert (Quote(s) + r)[1..] == Remaining(s, r);
    RemainingIsRead(s, r);
  }
}

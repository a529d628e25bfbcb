/** Option and result types, and the text helpers that the Python sources use
    on every identifier: `str.strip`, `str.upper` and the "is blank" test. */
module Common {
  datatype Option<+T> = None | Some(value: T)

  /** A returned value, or the exception that was raised instead. */
  datatype Result<+T, +E> = Ok(value: T) | Err(error: E)

  /** The ASCII characters that `str.strip()` removes. */
  predicate IsSpace(c: char) {
    9 <= c as int <= 13 || 28 <= c as int <= 32
  }

  function TrimLeft(s: string): string {
    if s != "" && IsSpace(s[0]) then TrimLeft(s[1..]) else s
  }

  function TrimRight(s: string): string {
    if s != "" && IsSpace(s[|s| - 1]) then TrimRight(s[..|s| - 1]) else s
  }

  function Strip(s: string): string {
    TrimRight(TrimLeft(s))
  }

  lemma {:induction false} TrimLeftEnds(s: string)
    ensures var t := TrimLeft(s); t == "" || !IsSpace(t[0])
  {
    if s != "" && IsSpace(s[0]) {
      TrimLeftEnds(s[1..]);
    }
  }

  lemma {:induction false} TrimRightEnds(s: string)
    ensures var t := TrimRight(s); t == "" || (!IsSpace(t[|t| - 1]) && s != "" && t[0] == s[0])
  {
    if s != "" && IsSpace(s[|s| - 1]) {
      TrimRightEnds(s[..|s| - 1]);
    }
  }

  lemma {:induction false} StripIdempotent(s: string)
    ensures Strip(Strip(s)) == Strip(s)
  {
    TrimLeftEnds(s);
    TrimRightEnds(TrimLeft(s));
  }

  predicate Blank(s: string) {
    Strip(s) == ""
  }

  function UpperChar(c: char): char {
    if 'a' <= c <= 'z' then (c as int - 32) as char else c
  }

  function Upper(s: string): string {
    seq(|s|, i requires 0 <= i < |s| => UpperChar(s[i]))
  }

  /** `s.strip().upper()`, the canonical form of a symbol. */
  function Normalize(s: string): string {
    Upper(Strip(s))
  }

  lemma UpperKeepsSpaces(c: char)
    ensures IsSpace(UpperChar(c)) <==> IsSpace(c)
    ensures UpperChar(UpperChar(c)) == UpperChar(c)
  {
  }

  lemma StripEnds(s: string)
    ensures var t := Strip(s); t == "" || (!IsSpace(t[0]) && !IsSpace(t[|t| - 1]))
  {
    TrimLeftEnds(s);
    TrimRightEnds(TrimLeft(s));
  }

  lemma StripOfTight(t: string)
    requires t == "" || (!IsSpace(t[0]) && !IsSpace(t[|t| - 1]))
    ensures Strip(t) == t
  {
  }

  /** A canonical text stays as it is. */
  lemma NormalizeIdempotent(s: string)
    ensures Normalize(Normalize(s)) == Normalize(s)
  {
    var t := Strip(s);
    var u := Upper(t);
    StripEnds(s);
    if u != "" {
      UpperKeepsSpaces(t[0]);
      UpperKeepsSpaces(t[|t| - 1]);
    }
    StripOfTight(u);
    assert Upper(u) == u by {
      forall i | 0 <= i < |t| ensures UpperChar(u[i]) == u[i] {
        UpperKeepsSpaces(t[i]);
      }
    }
  }

  // ------------------------------------------------------------ text order

  /** Python's order on texts. */
  predicate TextLess(a: string, b: string) {
    if b == "" then false
    else if a == "" then true
    else if a[0] != b[0] then a[0] < b[0]
    else TextLess(a[1..], b[1..])
  }

  lemma {:induction false} TextOrder(a: string, b: string, c: string)
    ensures !TextLess(a, a)
    ensures a == b || TextLess(a, b) || TextLess(b, a)
    ensures TextLess(a, b) && TextLess(b, c) ==> TextLess(a, c)
  {
    if a != "" && b != "" && c != "" {
      TextOrder(a[1..], b[1..], c[1..]);
    } else if a != "" && b != "" {
      TextOrder(a[1..], b[1..], "");
    } else if a != "" {
      TextOrder(a[1..], "", "");
    }
    if a != "" && b != "" {
      assert a == [a[0]] + a[1..] && b == [b[0]] + b[1..];
    }
  }

  // ------------------------------------------------------------ numbers

  /** What the sources allow two quantities or prices to differ by. */
  const TOLERANCE: real := 0.000000000001

  function Abs(x: real): real {
    if x < 0.0 then -x else x
  }

  function Times(a: real, b: real): real {
    a * b
  }

  function Max(x: real, y: real): real {
    if x < y then y else x
  }
}

/**
 C strings over Dafny sequences. A byte is a `char`; a buffer is a sequence of bytes in which NUL
 ends the text, as `strlen` and `strstr` see it.
 */
module Text {
  const NUL: char := '\0'
  /** The end of an HTTP header. */
  const HEADER_END := "\r\n\r\n"

  datatype Option<+T> = None | Some(value: T)

  function Min(a: nat, b: nat): nat {
    if a <= b then a else b
  }

  /** `strlen`, where the end of the buffer also ends the text. */
  function StrLen(s: string): (n: nat)
    ensures n <= |s|
    ensures forall i | 0 <= i < n :: s[i] != NUL
    ensures n < |s| ==> s[n] == NUL
  {
    if s == "" || s[0] == NUL then 0 else 1 + StrLen(s[1..])
  }

  /** The text a buffer holds. */
  function CStr(s: string): string {
    s[..StrLen(s)]
  }

  predicate OccursAt(s: string, p: string, i: nat) {
    i + |p| <= |s| && s[i..i + |p|] == p
  }

  predicate Contains(s: string, p: string) {
    exists i: nat | i <= |s| :: OccursAt(s, p, i)
  }

  /** `strstr(buffer, pattern) != NULL`. */
  predicate StrStr(buffer: string, pattern: string) {
    Contains(CStr(buffer), pattern)
  }

  function Zeros(n: nat): (r: string)
    ensures |r| == n
  {
    seq(n, _ => NUL)
  }

  /** `data` copied over `buffer` from offset `off`. */
  function Splice(buffer: string, off: nat, data: string): (r: string)
    requires off + |data| <= |buffer|
    ensures |r| == |buffer|
  {
    buffer[..off] + data + buffer[off + |data|..]
  }

  /** At most `n` bytes of `s`: what `snprintf` and `strncat` leave in a buffer. */
  function Clip(s: string, n: nat): (r: string)
    ensures |r| <= n
    ensures |s| <= n ==> r == s
  {
    s[..Min(|s|, n)]
  }

  function Digit(d: nat): char
    requires d < 10
  {
    ['0', '1', '2', '3', '4', '5', '6', '7', '8', '9'][d]
  }

  /** What `%d` prints. */
  function Decimal(n: int): (r: string)
    ensures r != ""
    decreases n < 0, if n < 0 then -n else n
  {
    if n < 0 then "-" + Decimal(-n)
    else if n < 10 then [Digit(n)]
    else Decimal(n / 10) + [Digit(n % 10)]
  }

  /** Trailing NULs do not change what `strstr` finds. */
  lemma StrStrIgnoresPadding(s: string, n: nat, pattern: string)
    ensures StrStr(s + Zeros(n), pattern) <==> StrStr(s, pattern)
  {
    var t := s + Zeros(n);
    assert forall i | 0 <= i < |s| :: t[i] == s[i];
    assert StrLen(s) < |t| ==> t[StrLen(s)] == NUL;
    assert CStr(t) == CStr(s);
  }

  /** A read appended at the end of the received text, and its terminator, keep the buffer padded with NULs. */
  lemma SpliceKeepsPadding(s: string, data: string, size: nat)
    requires |s| + |data| < size
    ensures Splice(s + Zeros(size - |s|), |s|, data)[|s| + |data| := NUL]
         == (s + data) + Zeros(size - |s| - |data|)
  {
  }

  lemma ContainsNonEmpty(s: string, p: string)
    requires StrStr(s, p)
    ensures |p| <= |s|
  {
  }

  /** `strstr` looks no further than the first NUL. */
  lemma StrStrStopsAtNul(s: string, rest: string, pattern: string)
    ensures StrStr(s + [NUL] + rest, pattern) <==> StrStr(s, pattern)
  {
    var t := s + [NUL] + rest;
    assert forall i | 0 <= i < |s| :: t[i] == s[i];
    assert t[|s|] == NUL;
    assert StrLen(t) == StrLen(s);
    assert CStr(t) == CStr(s);
  }

  /** The elements of a set, listed. */
  lemma {:induction false} Enumerate<T>(s: set<T>) returns (order: seq<T>)
    ensures |order| == |s| && forall x :: x in s <==> x in order
    ensures forall j, k | 0 <= j < k < |order| :: order[j] != order[k]
    decreases |s|
  {
    order := [];
    if s != {} {
      var x :| x in s;
      var rest := Enumerate(s - {x});
      order := rest + [x];
    }
  }

  lemma SmallerSet<T>(a: set<T>, b: set<T>)
    requires a <= b
    ensures |a| <= |b|
  {
    assert b == a + (b - a);
  }
}

/** Result types and the few string operations that several components share. */
module Common {

  datatype Option<+T> = None | Some(value: T)

  datatype Result<+T, +E> = Ok(value: T) | Err(error: E)

  /** The decimal digits of a natural number, as `%d` prints them. */
  function Digits(n: nat): (s: string)
    ensures s != []
  {
    if n < 10 then [DigitChar(n)] else Digits(n / 10) + [DigitChar(n % 10)]
  }

  function DigitChar(d: nat): char
    requires d < 10
  {
    '0' + d as char
  }

  /** `%d` on any integer. */
  function Decimal(n: int): string {
    if n < 0 then "-" + Digits(-n) else Digits(n)
  }

  /** Unicode white space, the characters that `strings.TrimSpace` removes. */
  predicate IsSpace(c: char) {
    || '\t' <= c <= '\r' || c == ' ' || c == '\U{85}' || c == '\U{A0}' || c == '\U{1680}'
    || '\U{2000}' <= c <= '\U{200A}' || c == '\U{2028}' || c == '\U{2029}'
    || c == '\U{202F}' || c == '\U{205F}' || c == '\U{3000}'
  }

  function TrimLeft(s: string): string {
    if s != [] && IsSpace(s[0]) then TrimLeft(s[1..]) else s
  }

  function TrimRight(s: string): string {
    if s != [] && IsSpace(s[|s| - 1]) then TrimRight(s[..|s| - 1]) else s
  }

  function TrimSpace(s: string): string {
    TrimRight(TrimLeft(s))
  }

  /** Lower case. Exact on every character whose lower case is an ASCII letter or one of the letters
      that `unaccent` transliterates; any other character is kept, and every reader of the result
      (slugs, protocol names) treats such a character alike in both cases. */
  function LowerChar(c: char): char {
    if 'A' <= c <= 'Z' || ('\U{C0}' <= c <= '\U{DE}' && c != '\U{D7}') then c + ' '
    else if c == '\U{130}' then 'i'
    else if c == '\U{152}' then '\U{153}'
    else if c == '\U{178}' then '\U{FF}'
    else if c == '\U{212A}' then 'k'
    else if c == '\U{212B}' then '\U{E5}'
    else c
  }

  function Lower(s: string): string {
    seq(|s|, i requires 0 <= i < |s| => LowerChar(s[i]))
  }

  predicate Contains(s: string, c: char) {
    exists i :: 0 <= i < |s| && s[i] == c
  }

  /** The table that the first `n` entries fill, a later entry replacing an earlier one. */
  function Table<K, V>(ks: seq<K>, vs: seq<V>, n: nat): map<K, V>
    requires n <= |ks| == |vs|
  {
    if n == 0 then map[] else Table(ks, vs, n - 1)[ks[n - 1] := vs[n - 1]]
  }

  lemma {:induction false} TableHas<K, V>(ks: seq<K>, vs: seq<V>, n: nat)
    requires n <= |ks| == |vs|
    ensures forall i :: 0 <= i < n ==> ks[i] in Table(ks, vs, n)
    ensures forall k :: k in Table(ks, vs, n) ==> exists i :: 0 <= i < n && ks[i] == k && Table(ks, vs, n)[k] == vs[i]
  {
    if n > 0 {
      TableHas(ks, vs, n - 1);
    }
  }

  /** The first `n` lists, one after the other. */
  function Flat<T>(lists: seq<seq<T>>, n: nat): seq<T>
    requires n <= |lists|
  {
    if n == 0 then [] else Flat(lists, n - 1) + lists[n - 1]
  }

  lemma {:induction false} FlatHas<T>(lists: seq<seq<T>>, n: nat, x: T)
    requires n <= |lists|
    ensures x in Flat(lists, n) <==> exists i :: 0 <= i < n && x in lists[i]
  {
    if n > 0 {
      FlatHas(lists, n - 1, x);
    }
  }

  lemma CutAt<T>(s: seq<T>, i: nat, n: nat)
    requires i <= n <= |s|
    ensures s[i..] == s[i..n] + s[n..]
  {
  }

  /** Moves `a` from what is left to what is done. */
  lemma Shift<T>(done: seq<T>, a: seq<T>, rest: seq<T>, left: seq<T>, total: seq<T>)
    requires done + left == total && left == a + rest
    ensures done + a + rest == total
  {
  }

  lemma NothingMore<T>(s: seq<T>)
    ensures s + [] == s
  {
  }
}

/**
 * Sequence and string helpers shared by the modules of the model: the
 * Python slicing, splitting, joining and stripping operations that the
 * build and watch code relies on, stated over Dafny sequences.
 */
module Text {

  datatype Option<+T> = None | Some(value: T)

  /** Python's `s[-n:]` for a positive `n`: the last `n` elements, or all of `s`. */
  function Tail<T>(s: seq<T>, n: nat): (r: seq<T>)
    ensures |r| == if |s| <= n then |s| else n
  {
    if |s| <= n then s else s[|s| - n..]
  }

  /** Python's `s[:n]`: the first `n` elements, or all of `s`. */
  function Prefix<T>(s: seq<T>, n: nat): (r: seq<T>)
    ensures |r| == if |s| <= n then |s| else n
  {
    if |s| <= n then s else s[..n]
  }

  /** The tail is what remains after dropping a prefix, and the prefix is the start. */
  lemma TailIsSuffix<T>(s: seq<T>, n: nat)
    ensures s[..|s| - |Tail(s, n)|] + Tail(s, n) == s
    ensures Prefix(s, n) == s[..|Prefix(s, n)|]
  {
  }

  /** Taking a shorter tail of a tail is taking that tail directly. */
  lemma TailOfTail<T>(s: seq<T>, m: nat, n: nat)
    requires n <= m
    ensures Tail(Tail(s, m), n) == Tail(s, n)
  {
  }

  /** Appending after truncation and truncating again loses nothing more. */
  lemma TailSnoc<T>(s: seq<T>, x: T, n: nat)
    requires 0 < n
    ensures Tail(Tail(s, n) + [x], n) == Tail(s + [x], n)
  {
    if |s| > n {
      assert Tail(s, n) + [x] == (s + [x])[|s| - n..];
    }
  }

  /**
   * Python's `s.split(sep)` for a one-character separator: the pieces
   * between separators, in order; there is always at least one piece.
   */
  function Split(s: string, sep: char): (r: seq<string>)
    ensures |r| >= 1
    ensures forall k :: 0 <= k < |r| ==> sep !in r[k]
    decreases |s|
  {
    if |s| == 0 then [""]
    else
      var rest := Split(s[1..], sep);
      if s[0] == sep then [""] + rest
      else [[s[0]] + rest[0]] + rest[1..]
  }

  /** Python's `sep.join(parts)`. */
  function Join(parts: seq<string>, sep: string): string
    decreases |parts|
  {
    if |parts| == 0 then ""
    else if |parts| == 1 then parts[0]
    else parts[0] + sep + Join(parts[1..], sep)
  }

  /** Splitting and joining back with the same separator restores the text. */
  lemma {:induction false} JoinSplit(s: string, sep: char)
    ensures Join(Split(s, sep), [sep]) == s
    decreases |s|
  {
    if |s| > 0 {
      var rest := Split(s[1..], sep);
      JoinSplit(s[1..], sep);
      if s[0] == sep {
        assert Split(s, sep) == [""] + rest;
        assert ([""] + rest)[1..] == rest;
        assert Join(Split(s, sep), [sep]) == "" + [sep] + Join(rest, [sep]);
        assert s == [s[0]] + s[1..];
      } else {
        var head := [s[0]] + rest[0];
        assert Split(s, sep) == [head] + rest[1..];
        if |rest| == 1 {
          assert Join(Split(s, sep), [sep]) == head;
          assert Join(rest, [sep]) == rest[0];
        } else {
          assert ([head] + rest[1..])[1..] == rest[1..];
          assert Join(Split(s, sep), [sep]) == head + [sep] + Join(rest[1..], [sep]);
          assert Join(rest, [sep]) == rest[0] + [sep] + Join(rest[1..], [sep]);
        }
        assert s == [s[0]] + s[1..];
      }
    }
  }

  /** The characters Python's `str.strip()` removes (those for which `str.isspace()` holds). */
  predicate IsSpace(c: char)
  {
    c == ' ' || ('\t' <= c <= '\r') || ('\U{1C}' <= c <= '\U{1F}')
    || c == '\U{85}' || c == '\U{A0}' || c == '\U{1680}'
    || ('\U{2000}' <= c <= '\U{200A}') || c == '\U{2028}' || c == '\U{2029}'
    || c == '\U{202F}' || c == '\U{205F}' || c == '\U{3000}'
  }

  /** `line.strip()` is empty, i.e. the line is falsy after stripping. */
  predicate IsBlank(line: string)
  {
    forall k :: 0 <= k < |line| ==> IsSpace(line[k])
  }

  function DigitChar(d: nat): char
    requires d < 10
  {
    "0123456789"[d]
  }

  /** The decimal representation of a natural number, without leading zeros. */
  function NatText(n: nat): (r: string)
    ensures |r| >= 1
    ensures forall k :: 0 <= k < |r| ==> '0' <= r[k] <= '9'
  {
    if n < 10 then [DigitChar(n)] else NatText(n / 10) + [DigitChar(n % 10)]
  }

  /** Python's `f"{t / 100:.2f}"` for a whole number `t` of hundredths. */
  function HundredthsText(t: int): (r: string)
    ensures |r| >= 4 && r[|r| - 3] == '.'
    ensures (t < 0) == (r[0] == '-')
  {
    var a: nat := if t < 0 then -t else t;
    (if t < 0 then "-" else "") + NatText(a / 100) + "." + [DigitChar(a % 100 / 10), DigitChar(a % 10)]
  }
}

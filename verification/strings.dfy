/** String helpers with the meaning of the Python operations the explorer uses
    on its tagged entries and prompt answers. */
module Strings {

  /** `s.startswith(prefix)` */
  predicate StartsWith(s: string, prefix: string) {
    |prefix| <= |s| && s[..|prefix|] == prefix
  }

  /** `s.endswith(suffix)` */
  predicate EndsWith(s: string, suffix: string) {
    |suffix| <= |s| && s[|s| - |suffix|..] == suffix
  }

  /** Python's slice `s[n:]`: empty when `n` is past the end, never an error. */
  function Drop(s: string, n: nat): (r: string)
    ensures |r| == if n <= |s| then |s| - n else 0
    ensures forall i :: 0 <= i < |r| ==> r[i] == s[n + i]
  {
    if n <= |s| then s[n..] else []
  }

  /** Dropping exactly a prefix gives back what followed it. */
  lemma DropPrefix(prefix: string, rest: string)
    ensures Drop(prefix + rest, |prefix|) == rest
  {
  }

  /** `c.lower()` restricted to ASCII letters. */
  function LowerChar(c: char): char {
    if 'A' <= c <= 'Z' then (c as int + 32) as char else c
  }

  /** `s.lower()` restricted to ASCII letters. */
  function Lower(s: string): string {
    seq(|s|, i requires 0 <= i < |s| => LowerChar(s[i]))
  }

  /** The only answers whose lower-case form is "y" are "y" and "Y". */
  lemma LowerIsY(answer: string)
    ensures Lower(answer) == "y" <==> answer == "y" || answer == "Y"
  {
  }
}

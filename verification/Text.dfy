/** Trimming and case folding of the ASCII names the program compares. */
module Text {

  predicate Space(ch: char) {
    ch in " \t\n\r"
  }

  function TrimLeft(s: string): string {
    if s != "" && Space(s[0]) then TrimLeft(s[1..]) else s
  }

  function TrimRight(s: string): string {
    if s != "" && Space(s[|s| - 1]) then TrimRight(s[..|s| - 1]) else s
  }

  function Trim(s: string): string {
    TrimRight(TrimLeft(s))
  }

  function LowerChar(ch: char): char {
    if 'A' <= ch <= 'Z' then ch - 'A' + 'a' else ch
  }

  function Lower(s: string): string {
    seq(|s|, k requires 0 <= k < |s| => LowerChar(s[k]))
  }

  /** Equality under case folding, for ASCII names. */
  predicate EqualFold(a: string, b: string) {
    Lower(a) == Lower(b)
  }

  function Normal(s: string): string {
    Lower(Trim(s))
  }

  /** Text that trimming and case folding leave alone. */
  predicate Plain(s: string) {
    s != "" && !Space(s[0]) && !Space(s[|s| - 1]) && forall k :: 0 <= k < |s| ==> !('A' <= s[k] <= 'Z')
  }

  lemma PlainIsNormal(s: string)
    requires Plain(s)
    ensures Normal(s) == s && Trim(s) == s
  {
    assert TrimLeft(s) == s && TrimRight(s) == s;
    assert Lower(s) == s;
  }
}

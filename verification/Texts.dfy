/** The few operations on ASCII text that parsing needs. */
module Texts {
  const SPACES := " \t\n\r"

  function Lower(c: char): (r: char) {
    if 'A' <= c <= 'Z' then (c as int + 32) as char else c
  }

  function Lowered(s: string): (r: string)
    ensures |r| == |s|
  {
    if s == "" then "" else [Lower(s[0])] + Lowered(s[1..])
  }

  function TrimLeft(s: string): (r: string) {
    if s != "" && s[0] in SPACES then TrimLeft(s[1..]) else s
  }

  function TrimRight(s: string): (r: string) {
    if s != "" && s[|s| - 1] in SPACES then TrimRight(s[..|s| - 1]) else s
  }

  function Trim(s: string): (r: string) {
    TrimRight(TrimLeft(s))
  }

  function Upper(c: char): (r: char) {
    if 'a' <= c <= 'z' then (c as int - 32) as char else c
  }

  function Uppered(s: string): (r: string)
    ensures |r| == |s|
  {
    if s == "" then "" else [Upper(s[0])] + Uppered(s[1..])
  }

  lemma {:induction false} LoweredTwice(s: string)
    ensures Lowered(Lowered(s)) == Lowered(s)
  {
    if s != "" {
      LoweredTwice(s[1..]);
      assert Lowered(s)[1..] == Lowered(s[1..]);
    }
  }

  /** A DNS label: lower-case letters, digits and inner hyphens, at most 63 characters. */
  predicate DnsLabel(s: string) {
    && 1 <= |s| <= 63
    && (forall k | 0 <= k < |s| :: IsAlphanumeric(s[k]) || s[k] == '-')
    && s[0] != '-' && s[|s| - 1] != '-'
  }

  predicate IsAlphanumeric(c: char) {
    'a' <= c <= 'z' || '0' <= c <= '9'
  }
}

/** Small facts about sequences, stated apart so that proofs can call them by name. */
module Sequences {

  lemma Nothing<T>(s: seq<T>)
    ensures s + [] == s && [] + s == s
  {
  }

  lemma Whole<T>(s: seq<T>)
    ensures s[..|s|] == s && s[0..] == s
  {
  }

  lemma Reassociate<T>(a: seq<T>, b: seq<T>, c: seq<T>)
    ensures a + (b + c) == a + b + c
  {
  }

  lemma Drop<T>(s: seq<T>, a: nat, b: nat)
    requires a + b <= |s|
    ensures s[a..][b..] == s[a + b..]
  {
  }

  lemma Split<T>(s: seq<T>, at: nat, n: nat)
    requires at + n <= |s|
    ensures s[at..] == s[at..at + n] + s[at + n..] && s[at..][n..] == s[at + n..]
    ensures s[at..][..n] == s[at..at + n]
  {
  }

  lemma HeadTail<T>(s: seq<T>, t: seq<T>)
    requires s != []
    ensures [s[0]] + s[1..] == s && [s[0]] + (s[1..] + t) == s + t
  {
  }

  lemma Last<T>(s: seq<T>, n: nat)
    requires n < |s|
    ensures s[..n + 1] == s[..n] + [s[n]]
  {
  }
}

/** Facts about sequences that proofs elsewhere need by name. */
module Sequences {
  lemma Regroup<T>(a: seq<T>, b: seq<T>, c: seq<T>)
    ensures a + (b + c) == a + b + c
  {
  }

  lemma SplitLast<T>(items: seq<T>)
    requires items != []
    ensures items[..|items| - 1] + [items[|items| - 1]] == items
  {
  }

  lemma Whole<T>(items: seq<T>)
    ensures items[0..] == items && items[..|items|] == items && items + [] == items
  {
  }

  lemma PrefixOfPrefix<T>(items: seq<T>, n: nat, k: nat)
    requires k <= n <= |items|
    ensures items[..n][..k] == items[..k]
  {
  }
}

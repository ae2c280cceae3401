/** Small facts about finite sets. */
module FiniteSets {

  lemma SoleMember<T>(s: set<T>, a: T, b: T)
    requires |s| == 1 && a in s && b in s
    ensures a == b
  {
    assert |s - {a}| == 0;
    assert b in {a} + (s - {a});
  }

  /** Members that are numbered one or two, each number once, are at most two. */
  lemma AtMostTwo<T>(s: set<T>, number: T -> nat)
    requires forall a :: a in s ==> number(a) == 1 || number(a) == 2
    requires forall a, b :: a in s && b in s && number(a) == number(b) ==> a == b
    ensures |s| <= 2
  {
    if a :| a in s {
      if b :| b in s && b != a {
        assert s == {a, b};
      } else {
        assert s == {a};
      }
    }
  }
}

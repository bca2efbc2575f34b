// Small helpers shared by every module: optional values and majorities.

module Prelude {

  datatype Option<+T> = None | Some(value: T)

  // len(members) // 2 + 1 members of a fixed group.
  predicate Majority<T(==)>(quorum: set<T>, members: set<T>) {
    quorum <= members && |quorum| >= |members| / 2 + 1
  }

  lemma Member<T>(s: set<T>) returns (x: T)
    requires s != {}
    ensures x in s
  {
    x :| x in s;
  }

  lemma SubsetCardinality<T>(a: set<T>, b: set<T>)
    requires a <= b
    ensures |a| <= |b|
  {
    if a != {} {
      var x :| x in a;
      SubsetCardinality(a - {x}, b - {x});
    }
  }

  lemma UnionCardinality<T>(a: set<T>, b: set<T>)
    requires a !! b
    ensures |a + b| == |a| + |b|
  {
    if b != {} {
      var x :| x in b;
      UnionCardinality(a, b - {x});
      assert a + b == (a + (b - {x})) + {x};
    }
  }

  // Two majorities of one group share a member.
  lemma MajoritiesMeet<T>(a: set<T>, b: set<T>, members: set<T>) returns (x: T)
    requires Majority(a, members) && Majority(b, members)
    ensures x in a && x in b
  {
    if a !! b {
      UnionCardinality(a, b);
      SubsetCardinality(a + b, members);
      assert false;
    }
    x :| x in a && x in b;
  }

  lemma MajorityGrows<T>(a: set<T>, b: set<T>, members: set<T>)
    requires Majority(a, members) && a <= b <= members
    ensures Majority(b, members)
  {
    SubsetCardinality(a, b);
  }
}

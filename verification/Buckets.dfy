/** The index maps of the running store, as the relations they denote, and enumeration of a
    table in key order. */
module Buckets {
  import opened Records
  import opened StoreMachine
  import opened StepShapes

  ghost function Relation<B>(index: map<B, set<Id>>): set<(B, Id)> {
    set b, x | b in index && x in index[b] :: (b, x)
  }

  /** No id is in two buckets. */
  ghost predicate Exclusive<B(!new)>(index: map<B, set<Id>>) {
    forall b, c, x :: b in index && c in index && x in index[b] && x in index[c] ==> b == c
  }

  /** Take `x` out of the first bucket that has it, and out of no other. */
  method Evict<B(==, !new)>(index: map<B, set<Id>>, x: Id) returns (r: map<B, set<Id>>)
    requires Exclusive(index)
    ensures r.Keys == index.Keys
    ensures forall b :: b in index ==> r[b] == index[b] - {x}
  {
    r := index;
    var todo := index.Keys;
    while todo != {}
      invariant todo <= index.Keys && r == index
      invariant forall b :: b in index && b !in todo ==> x !in index[b]
      decreases |todo|
    {
      var b :| b in todo;
      todo := todo - {b};
      if x in index[b] {
        r := index[b := index[b] - {x}];
        break;
      }
    }
  }

  /** The bucket update: one id leaves its bucket and enters another. */
  method Rebucket<B(==, !new)>(index: map<B, set<Id>>, x: Id, b: B) returns (r: map<B, set<Id>>)
    requires Exclusive(index)
    ensures Exclusive(r)
    ensures Relation(r) == MovedTo(Relation(index), x, b)
  {
    var m := Evict(index, x);
    r := m[b := (if b in m then m[b] else {}) + {x}];
  }

  method Insert<B(==)>(index: map<B, set<Id>>, b: B, x: Id) returns (r: map<B, set<Id>>)
    ensures Relation(r) == Relation(index) + {(b, x)}
  {
    r := index[b := (if b in index then index[b] else {}) + {x}];
  }

  method LeastOf(s: set<Id>) returns (x: Id)
    requires s != {}
    ensures IsLeast(x, s)
  {
    x :| x in s;
    var todo := s - {x};
    while todo != {}
      invariant x in s && todo <= s
      invariant forall y :: y in s && y !in todo ==> x <= y
      decreases |todo|
    {
      var y :| y in todo;
      todo := todo - {y};
      if y < x {
        x := y;
      }
    }
  }

  /** The keys of a table in the order in which the table is iterated. */
  method InOrder(keys: set<Id>) returns (ks: seq<Id>)
    ensures ks == Sorted(keys)
  {
    hide IsLeast, Sorted, Completed;
    ks := [];
    var rest := keys;
    Completes([], keys, keys);
    while rest != {}
      invariant Completed(ks, rest, keys)
      decreases |rest|
    {
      var x := LeastOf(rest);
      CompletesNext(ks, rest, keys, x);
      ks := ks + [x];
      rest := rest - {x};
    }
    CompletedAll(ks, keys);
  }

  /** What is listed so far, continued by what is left in order, is the whole in order. */
  ghost predicate Completed(ks: seq<Id>, rest: set<Id>, keys: set<Id>) {
    ks + Sorted(rest) == Sorted(keys)
  }

  lemma Completes(ks: seq<Id>, rest: set<Id>, keys: set<Id>)
    requires ks == [] && rest == keys
    ensures Completed(ks, rest, keys)
  {
    hide Sorted;
    assert ks + Sorted(rest) == Sorted(rest);
  }

  lemma CompletesNext(ks: seq<Id>, rest: set<Id>, keys: set<Id>, x: Id)
    requires Completed(ks, rest, keys) && IsLeast(x, rest)
    ensures Completed(ks + [x], rest - {x}, keys)
  {
    hide Sorted;
    SortedStarts(rest, x);
    var tail := Sorted(rest - {x});
    assert ks + ([x] + tail) == ks + [x] + tail;
  }

  lemma CompletedAll(ks: seq<Id>, keys: set<Id>)
    requires Completed(ks, {}, keys)
    ensures ks == Sorted(keys)
  {
    assert ks + [] == ks;
  }

  lemma SortedStarts(s: set<Id>, x: Id)
    requires IsLeast(x, s)
    ensures Sorted(s) == [x] + Sorted(s - {x})
  {
    assert IsLeast(Least(s), s);
  }
}

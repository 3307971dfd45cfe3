/** Counting tasks over a list of places. */
module Parts {
  import opened ReadyQueue

  function Total(ms: seq<multiset<Task>>): multiset<Task> {
    if ms == [] then multiset{} else ms[0] + Total(ms[1..])
  }

  // Changing one place changes the total by what that place gained and lost.
  lemma {:induction false} TotalUpdate(ms: seq<multiset<Task>>, a: nat, m: multiset<Task>)
    requires a < |ms|
    ensures Total(ms[a := m]) + ms[a] == Total(ms) + m
  {
    if a == 0 {
      assert ms[a := m][1..] == ms[1..];
    } else {
      var tail := ms[1..][a - 1 := m];
      assert ms[a := m][1..] == tail;
      TotalUpdate(ms[1..], a - 1, m);
      assert ms[0] + Total(tail) + ms[a] == ms[0] + (Total(tail) + ms[1..][a - 1]);
      assert ms[0] + (Total(ms[1..]) + m) == ms[0] + Total(ms[1..]) + m;
    }
  }

  lemma {:induction false} PartOfTotal(ms: seq<multiset<Task>>, a: nat, x: Task)
    requires a < |ms|
    ensures ms[a][x] <= Total(ms)[x]
  {
    if a > 0 {
      PartOfTotal(ms[1..], a - 1, x);
    }
  }

  // Two places together hold no more than the total.
  lemma {:induction false} TwoPartsOfTotal(ms: seq<multiset<Task>>, a: nat, b: nat, x: Task)
    requires a < b < |ms|
    ensures ms[a][x] + ms[b][x] <= Total(ms)[x]
  {
    if a > 0 {
      TwoPartsOfTotal(ms[1..], a - 1, b - 1, x);
    } else {
      PartOfTotal(ms[1..], b - 1, x);
    }
  }

  lemma {:induction false} SomePart(ms: seq<multiset<Task>>, x: Task) returns (a: nat)
    requires x in Total(ms)
    ensures a < |ms| && x in ms[a]
  {
    if x in ms[0] {
      a := 0;
    } else {
      a := SomePart(ms[1..], x);
      a := a + 1;
    }
  }

  lemma {:induction false} EmptyTotal(ms: seq<multiset<Task>>)
    requires forall a :: 0 <= a < |ms| ==> ms[a] == multiset{}
    ensures Total(ms) == multiset{}
  {
    if ms != [] {
      EmptyTotal(ms[1..]);
    }
  }
}

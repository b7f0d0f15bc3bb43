/** A LinkedHashSet as a sequence without duplicates in insertion order:
    `add` appends an element only when it is not yet present. */
module LinkedSets {

  predicate Distinct<T(==)>(s: seq<T>) {
    forall i, j :: 0 <= i < j < |s| ==> s[i] != s[j]
  }

  /** LinkedHashSet.add. */
  function AddUnique<T(==)>(s: seq<T>, x: T): (r: seq<T>)
    ensures x in r
    ensures |s| <= |r| && r[..|s|] == s
    ensures Distinct(s) ==> Distinct(r)
    ensures x in s ==> r == s
  {
    if x in s then s else s + [x]
  }

  /** Adding the elements of xs in order. */
  function AddAll<T(==)>(acc: seq<T>, xs: seq<T>): seq<T> {
    if xs == [] then acc else AddUnique(AddAll(acc, xs[..|xs| - 1]), xs[|xs| - 1])
  }

  lemma AddAllSnoc<T>(acc: seq<T>, xs: seq<T>, x: T)
    ensures AddAll(acc, xs + [x]) == AddUnique(AddAll(acc, xs), x)
  {
    assert (xs + [x])[..|xs|] == xs;
  }

  lemma {:induction false} AddAllConcat<T>(acc: seq<T>, xs: seq<T>, ys: seq<T>)
    ensures AddAll(acc, xs + ys) == AddAll(AddAll(acc, xs), ys)
    decreases |ys|
  {
    if ys == [] {
      assert xs + ys == xs;
    } else {
      var init, y := ys[..|ys| - 1], ys[|ys| - 1];
      assert ys == init + [y];
      assert AddAll(acc, xs + ys) == AddUnique(AddAll(acc, xs + init), y) by {
        assert xs + ys == (xs + init) + [y];
        AddAllSnoc(acc, xs + init, y);
      }
      assert AddAll(AddAll(acc, xs), ys) == AddUnique(AddAll(AddAll(acc, xs), init), y) by {
        AddAllSnoc(AddAll(acc, xs), init, y);
      }
      AddAllConcat(acc, xs, init);
    }
  }

  lemma {:induction false} AddAllMembers<T>(acc: seq<T>, xs: seq<T>)
    ensures forall y :: y in AddAll(acc, xs) <==> y in acc || y in xs
  {
    if xs != [] {
      AddAllMembers(acc, xs[..|xs| - 1]);
      assert xs == xs[..|xs| - 1] + [xs[|xs| - 1]];
    }
  }

  lemma {:induction false} AddAllDistinct<T>(acc: seq<T>, xs: seq<T>)
    requires Distinct(acc)
    ensures Distinct(AddAll(acc, xs))
  {
    if xs != [] {
      AddAllDistinct(acc, xs[..|xs| - 1]);
    }
  }

  lemma {:induction false} AddAllExtends<T>(acc: seq<T>, xs: seq<T>)
    ensures |acc| <= |AddAll(acc, xs)| && AddAll(acc, xs)[..|acc|] == acc
  {
    if xs != [] {
      var mid := AddAll(acc, xs[..|xs| - 1]);
      AddAllExtends(acc, xs[..|xs| - 1]);
      assert AddAll(acc, xs)[..|mid|] == mid;
      assert AddAll(acc, xs)[..|acc|] == mid[..|acc|];
    }
  }

  /** Every element that has a parent is preceded by that parent. */
  predicate ParentsEarlier<T(==)>(s: seq<T>, hasParent: T -> bool, parent: T -> T) {
    forall i :: 0 <= i < |s| && hasParent(s[i]) ==> parent(s[i]) in s[..i]
  }

  /** Adding, in order, elements that each come after their parent keeps
      every parent before its child. */
  lemma {:induction false} AddAllParentsEarlier<T>(acc: seq<T>, xs: seq<T>, hasParent: T -> bool, parent: T -> T)
    requires ParentsEarlier(acc, hasParent, parent)
    requires ParentsEarlier(xs, hasParent, parent)
    ensures ParentsEarlier(AddAll(acc, xs), hasParent, parent)
  {
    if xs != [] {
      var init, x := xs[..|xs| - 1], xs[|xs| - 1];
      forall i | 0 <= i < |init| && hasParent(init[i]) ensures parent(init[i]) in init[..i] {
        assert init[..i] == xs[..i];
      }
      AddAllParentsEarlier(acc, init, hasParent, parent);
      var mid := AddAll(acc, init);
      if x !in mid {
        var r := mid + [x];
        forall i | 0 <= i < |r| && hasParent(r[i]) ensures parent(r[i]) in r[..i] {
          if i < |mid| {
            assert r[..i] == mid[..i];
          } else {
            assert parent(x) in init;
            AddAllMembers(acc, init);
            assert r[..i] == mid;
          }
        }
      }
    }
  }

  /** Adding, item after item, the elements f gives for each item. */
  function AddEach<T(==), U>(items: seq<U>, f: U -> seq<T>): seq<T> {
    if items == [] then [] else AddAll(AddEach(items[..|items| - 1], f), f(items[|items| - 1]))
  }

  lemma {:induction false} AddEachMembers<T, U>(items: seq<U>, f: U -> seq<T>)
    ensures forall x :: x in AddEach(items, f) <==> exists j :: 0 <= j < |items| && x in f(items[j])
  {
    if items != [] {
      var init, last := items[..|items| - 1], items[|items| - 1];
      AddEachMembers(init, f);
      AddAllMembers(AddEach(init, f), f(last));
      forall x ensures x in AddEach(items, f) <==> exists j :: 0 <= j < |items| && x in f(items[j]) {
        if exists j :: 0 <= j < |items| && x in f(items[j]) {
          var j :| 0 <= j < |items| && x in f(items[j]);
          if j < |init| {
            assert init[j] == items[j];
          }
        }
        if x in AddEach(init, f) {
          var j :| 0 <= j < |init| && x in f(init[j]);
          assert init[j] == items[j];
        }
        if x in f(last) {
          assert x in f(items[|items| - 1]);
        }
      }
    }
  }

  /** x occurs at an earlier position than y. */
  predicate Before<T(==)>(s: seq<T>, x: T, y: T) {
    exists i, j :: 0 <= i < j < |s| && s[i] == x && s[j] == y
  }
}

/**
 A ledger says which owner lists which pages.  The reference count of a page is compared with
 the number of its holders, so all that is needed is how that number moves when one owner's
 list changes.
 */
module Ledger {
  import opened Prelude

  ghost function Holders<K>(l: map<K, seq<nat>>, b: nat): set<K> {
    set k | k in l && b in l[k]
  }

  ghost function Count<K>(l: map<K, seq<nat>>, b: nat): nat {
    |Holders(l, b)|
  }

  function One(p: bool): nat {
    if p then 1 else 0
  }

  lemma CountSet<K>(l: map<K, seq<nat>>, k: K, list: seq<nat>, b: nat)
    ensures Count(l[k := list], b) == Count(l, b) - One(k in l && b in l[k]) + One(b in list)
  {
    var was, now := Holders(l, b), Holders(l[k := list], b);
    if b in list {
      assert now == was + {k};
    } else {
      assert now == was - {k};
    }
  }

  lemma CountDrop<K>(l: map<K, seq<nat>>, k: K, b: nat)
    requires k in l
    ensures Count(l - {k}, b) == Count(l, b) - One(b in l[k])
  {
    assert Holders(l - {k}, b) == Holders(l, b) - {k};
  }

  lemma CountPos<K>(l: map<K, seq<nat>>, k: K, b: nat)
    requires k in l && b in l[k]
    ensures Count(l, b) >= 1
  {
    assert k in Holders(l, b);
  }

  /** With a single holder, every owner that lists the page is that holder. */
  lemma SoleHolder<K>(l: map<K, seq<nat>>, k: K, j: K, b: nat)
    requires Count(l, b) <= 1 && k in l && j in l && b in l[k] && b in l[j]
    ensures j == k
  {
    if j != k {
      assert {j, k} <= Holders(l, b);
      SubsetCard({j, k}, Holders(l, b));
    }
  }

  lemma {:induction false} SubsetCard<K>(a: set<K>, s: set<K>)
    requires a <= s
    ensures |a| <= |s|
    decreases a
  {
    if a != {} {
      var x :| x in a;
      SubsetCard(a - {x}, s - {x});
    }
  }
}

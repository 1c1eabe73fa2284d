/**
 * The ledger of domains already discovered (`SeenDomains` in discovery.py):
 * a set of canonical domains, loaded once from its file, grown by `add`, and
 * written back as a sorted list with its count. The file itself is not
 * modelled: its content is a value, and a file that is missing or does not
 * parse is `None`.
 */
module Ledger {

  import opened Wrappers
  import opened Strings
  import StableSort

  /** What the ledger file holds: `{"domains": [...], "count": n}`. */
  datatype LedgerFile = LedgerFile(domains: seq<string>, count: int)

  /** The elements of a list, as a set. */
  function Elems(xs: seq<string>): set<string> {
    set x | x in xs
  }

  /** The set `_load` starts from: the listed domains, or nothing for a missing or corrupt file. */
  function LoadedDomains(stored: Option<seq<string>>): (r: set<string>)
    ensures stored.None? ==> r == {}
    ensures stored.Some? ==> forall d :: d in r <==> d in stored.value
  {
    match stored
    case None => {}
    case Some(list) => Elems(list)
  }

  /**
   * `set(data["domains"])`: no more domains than the list holds, exactly as many
   * when the list has no repeats, and neither order nor repeats matter.
   */
  lemma {:induction false} LoadedDomainsSize(list: seq<string>)
    ensures |LoadedDomains(Some(list))| <= |list|
    ensures (forall i, j :: 0 <= i < j < |list| ==> list[i] != list[j]) ==> |LoadedDomains(Some(list))| == |list|
    decreases |list|
  {
    if list != [] {
      var init := list[..|list| - 1];
      var last := list[|list| - 1];
      LoadedDomainsSize(init);
      assert list == init + [last];
      assert Elems(list) == Elems(init) + {last};
      if forall i, j :: 0 <= i < j < |list| ==> list[i] != list[j] {
        forall k | 0 <= k < |init| ensures init[k] != last {
          assert init[k] == list[k];
        }
        assert last !in init;
      }
    }
  }

  /** Loading a list in two parts gives the union of the parts: order and repeats are lost. */
  lemma LoadedDomainsJoin(a: seq<string>, b: seq<string>)
    ensures LoadedDomains(Some(a + b)) == LoadedDomains(Some(a)) + LoadedDomains(Some(b))
    ensures LoadedDomains(Some(a + b)) == LoadedDomains(Some(b + a))
  {
    assert Elems(a + b) == Elems(a) + Elems(b);
    assert Elems(b + a) == Elems(b) + Elems(a);
  }

  /** Python's string order is a total preorder. */
  lemma LexLeIsTotalPreorder()
    ensures StableSort.TotalPreorder(LexLe)
  {
    forall a, b ensures LexLe(a, b) || LexLe(b, a) {
      LexLeTotal(a, b);
    }
    forall a, b, c | LexLe(a, b) && LexLe(b, c) ensures LexLe(a, c) {
      LexLeTransitive(a, b, c);
    }
  }

  /** A sorted list with no repeats: the shape `sorted(set)` produces. */
  predicate StrictlySorted(xs: seq<string>) {
    StableSort.Sorted(xs, LexLe) && forall i, j :: 0 <= i < j < |xs| ==> xs[i] != xs[j]
  }

  /** Two sorted lists without repeats that hold the same strings are the same list. */
  lemma {:induction false} SortedListUnique(xs: seq<string>, ys: seq<string>)
    requires StrictlySorted(xs) && StrictlySorted(ys)
    requires Elems(xs) == Elems(ys)
    ensures xs == ys
    decreases |xs|
  {
    assert xs != [] ==> xs[0] in Elems(xs);
    assert ys != [] ==> ys[0] in Elems(ys);
    if xs != [] && ys != [] {
      assert xs[0] in Elems(ys) && ys[0] in Elems(xs);
      var i :| 0 <= i < |ys| && ys[i] == xs[0];
      var j :| 0 <= j < |xs| && xs[j] == ys[0];
      assert LexLe(xs[0], xs[j]) by { LexLeTotal(xs[0], xs[0]); }
      assert LexLe(ys[0], ys[i]) by { LexLeTotal(ys[0], ys[0]); }
      LexLeAntisymmetric(xs[0], ys[0]);
      var xt, yt := xs[1..], ys[1..];
      assert StrictlySorted(xt) by {
        forall a, b | 0 <= a < b < |xt| ensures LexLe(xt[a], xt[b]) && xt[a] != xt[b] {
          assert xt[a] == xs[a + 1] && xt[b] == xs[b + 1];
        }
      }
      assert StrictlySorted(yt) by {
        forall a, b | 0 <= a < b < |yt| ensures LexLe(yt[a], yt[b]) && yt[a] != yt[b] {
          assert yt[a] == ys[a + 1] && yt[b] == ys[b + 1];
        }
      }
      assert Elems(xt) == Elems(yt) by {
        assert xs == [xs[0]] + xt && ys == [ys[0]] + yt;
        forall d ensures d in Elems(xt) <==> d in Elems(yt) {
          if d in xt {
            var k :| 0 <= k < |xt| && xt[k] == d;
            assert xs[k + 1] == d && d != xs[0];
            assert d in Elems(ys);
            var m :| 0 <= m < |ys| && ys[m] == d;
            assert m != 0 && yt[m - 1] == d;
          }
          if d in yt {
            var k :| 0 <= k < |yt| && yt[k] == d;
            assert ys[k + 1] == d && d != ys[0];
            assert d in Elems(xs);
            var m :| 0 <= m < |xs| && xs[m] == d;
            assert m != 0 && xt[m - 1] == d;
          }
        }
      }
      SortedListUnique(xt, yt);
      assert xs == [xs[0]] + xt && ys == [ys[0]] + yt;
    }
  }

  /** `SeenDomains`: the set of domains met so far, in this and earlier runs. */
  class SeenDomains {
    var domains: set<string>

    /** `SeenDomains(filepath)`: the ledger as its file left it; empty when the file is missing or corrupt. */
    constructor(stored: Option<seq<string>>)
      ensures domains == LoadedDomains(stored)
    {
      domains := LoadedDomains(stored);
    }

    /** `is_new`: the domain has not been met. */
    method IsNew(domain: string) returns (b: bool)
      ensures b <==> domain !in domains
    {
      b := domain !in domains;
    }

    /** `add`: the domain is now met; nothing else changes. */
    method Add(domain: string)
      modifies this
      ensures domains == old(domains) + {domain}
    {
      domains := domains + {domain};
    }

    /** `__len__`. */
    method Len() returns (n: nat)
      ensures n == |domains|
    {
      n := |domains|;
    }

    /** `__contains__`. */
    method Has(domain: string) returns (b: bool)
      ensures b <==> domain in domains
    {
      b := domain in domains;
    }

    /** `save`: the domains sorted, each once, and their count. */
    method Save() returns (file: LedgerFile)
      ensures StrictlySorted(file.domains)
      ensures Elems(file.domains) == domains
      ensures file.count == |domains| == |file.domains|
      ensures LoadedDomains(Some(file.domains)) == domains
    {
      var list := ListOf(domains);
      var sorted := StableSort.Sort(list, LexLe);
      SortDistinct(list);
      file := LedgerFile(sorted, |domains|);
    }
  }

  /** The members of a set, each once, in some order. */
  method ListOf(s: set<string>) returns (list: seq<string>)
    ensures Elems(list) == s && |list| == |s|
    ensures forall i, j :: 0 <= i < j < |list| ==> list[i] != list[j]
  {
    var rest := s;
    list := [];
    while rest != {}
      invariant Elems(list) + rest == s
      invariant Elems(list) !! rest
      invariant forall i, j :: 0 <= i < j < |list| ==> list[i] != list[j]
      invariant |list| + |rest| == |s|
      decreases |rest|
    {
      var d :| d in rest;
      assert d !in Elems(list);
      list := list + [d];
      rest := rest - {d};
    }
  }

  /** Sorting a list without repeats gives a sorted list without repeats, of the same strings. */
  lemma SortDistinct(list: seq<string>)
    requires forall i, j :: 0 <= i < j < |list| ==> list[i] != list[j]
    ensures var sorted := StableSort.Sort(list, LexLe);
            StrictlySorted(sorted) && Elems(sorted) == Elems(list) && |sorted| == |list|
  {
    var sorted := StableSort.Sort(list, LexLe);
    LexLeIsTotalPreorder();
    StableSort.SortSorted(list, LexLe);
    StableSort.SortKeepsInjective(list, LexLe, (s: string) => s);
    assert forall d :: d in sorted <==> d in multiset(sorted);
    assert forall d :: d in list <==> d in multiset(list);
  }

  /** Saving is determined by the set alone: two saves of the same set write the same list. */
  lemma SaveDeterministic(a: LedgerFile, b: LedgerFile)
    requires StrictlySorted(a.domains) && StrictlySorted(b.domains)
    requires Elems(a.domains) == Elems(b.domains)
    ensures a.domains == b.domains
  {
    SortedListUnique(a.domains, b.domains);
  }
}

/**
 * Merging the protocol documents: their `domains` lists are concatenated in
 * document order, and the result is indexed by domain name, a later domain
 * replacing an earlier one of the same name.
 */
module Merge {
  import opened Schema

  /** The concatenation of the documents' domain lists, in document order. */
  function Concat(ps: seq<Protocol>): seq<Domain>
  {
    if ps == [] then [] else Concat(ps[..|ps| - 1]) + ps[|ps| - 1]
  }

  /** Concatenation distributes over splitting the list of documents. */
  lemma {:induction false} ConcatAppend(ps: seq<Protocol>, qs: seq<Protocol>)
    ensures Concat(ps + qs) == Concat(ps) + Concat(qs)
    decreases |qs|
  {
    if qs == [] {
      assert ps + qs == ps;
    } else {
      var init, last := qs[..|qs| - 1], qs[|qs| - 1];
      assert (ps + qs)[..|ps + qs| - 1] == ps + init;
      ConcatAppend(ps, init);
    }
  }

  /** The j-th domain of document k comes right after every domain of the documents before k. */
  lemma ConcatPosition(ps: seq<Protocol>, k: nat, j: nat)
    requires k < |ps| && j < |ps[k]|
    ensures |Concat(ps[..k])| + j < |Concat(ps)|
    ensures Concat(ps)[|Concat(ps[..k])| + j] == ps[k][j]
  {
    assert ps == ps[..k] + ([ps[k]] + ps[k + 1..]);
    ConcatAppend(ps[..k], [ps[k]] + ps[k + 1..]);
    ConcatAppend([ps[k]], ps[k + 1..]);
    assert Concat([ps[k]]) == ps[k] by {
      assert [ps[k]][..0] == [];
    }
  }

  /** The names of the domains in `ds`. */
  function Names(ds: seq<Domain>): set<string>
  {
    set i | 0 <= i < |ds| :: ds[i].domain
  }

  /** No domain after position i has the name of the domain at i. */
  predicate IsLastNamed(ds: seq<Domain>, i: nat)
    requires i < |ds|
  {
    forall j :: i < j < |ds| ==> ds[j].domain != ds[i].domain
  }

  /** The map that inserting every domain of `ds` in order, keyed by name, produces. */
  function IndexByName(ds: seq<Domain>): map<string, Domain>
  {
    if ds == [] then map[]
    else IndexByName(ds[..|ds| - 1])[ds[|ds| - 1].domain := ds[|ds| - 1]]
  }

  /** The index has exactly the names present in the list as keys. */
  lemma {:induction false} IndexKeys(ds: seq<Domain>)
    ensures IndexByName(ds).Keys == Names(ds)
  {
    if ds != [] {
      var init := ds[..|ds| - 1];
      IndexKeys(init);
      assert Names(ds) == Names(init) + {ds[|ds| - 1].domain} by {
        forall x | x in Names(ds) ensures x in Names(init) + {ds[|ds| - 1].domain} {
          var i :| 0 <= i < |ds| && ds[i].domain == x;
          if i < |ds| - 1 { assert init[i] == ds[i]; }
        }
        forall x | x in Names(init) ensures x in Names(ds) {
          var i :| 0 <= i < |init| && init[i].domain == x;
          assert ds[i] == init[i];
        }
      }
    }
  }

  /** Each name maps to the last domain of that name in the list. */
  lemma {:induction false} IndexLastWins(ds: seq<Domain>, i: nat)
    requires i < |ds| && IsLastNamed(ds, i)
    ensures ds[i].domain in IndexByName(ds) && IndexByName(ds)[ds[i].domain] == ds[i]
  {
    if i < |ds| - 1 {
      var init := ds[..|ds| - 1];
      assert init[i] == ds[i];
      assert IsLastNamed(init, i) by {
        forall j | i < j < |init| ensures init[j].domain != init[i].domain {
          assert init[j] == ds[j];
        }
      }
      IndexLastWins(init, i);
      assert ds[|ds| - 1].domain != ds[i].domain;
    }
  }

  /**
   * The merge loop: pushes every document's domains onto one list, then sets
   * each domain into a map under its name.
   */
  method MergeDomains(protocols: seq<Protocol>) returns (all: seq<Domain>, domains: map<string, Domain>)
    ensures all == Concat(protocols)
    ensures domains == IndexByName(all)
    ensures domains.Keys == Names(all)
    ensures forall i :: 0 <= i < |all| && IsLastNamed(all, i) ==>
              all[i].domain in domains && domains[all[i].domain] == all[i]
  {
    all := [];
    for k := 0 to |protocols|
      invariant all == Concat(protocols[..k])
    {
      assert protocols[..k + 1][..k] == protocols[..k];
      all := all + protocols[k];
    }
    assert protocols[..|protocols|] == protocols;

    domains := map[];
    for k := 0 to |all|
      invariant domains == IndexByName(all[..k])
    {
      assert all[..k + 1][..k] == all[..k];
      domains := domains[all[k].domain := all[k]];
    }
    assert all[..|all|] == all;

    IndexKeys(all);
    forall i | 0 <= i < |all| && IsLastNamed(all, i)
      ensures all[i].domain in domains && domains[all[i].domain] == all[i]
    {
      IndexLastWins(all, i);
    }
  }
}

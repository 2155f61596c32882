/**
 * Grouping a list by a key, as the report loops do with a plain object used
 * as a dictionary: the keys in order of first appearance (the order in which
 * `Object.values` and `Object.entries` list string keys), and per-key sums of
 * a weight. Every definition recurses on the last element, the way a
 * `forEach` loop extends its accumulator.
 */
module Grouping {

  predicate Distintos<K(==)>(s: seq<K>) {
    forall i, j :: 0 <= i < j < |s| ==> s[i] != s[j]
  }

  /** The distinct keys of `cs`, in order of first appearance. */
  function Ordem<T, K(==)>(cs: seq<T>, chave: T -> K): seq<K> {
    if cs == [] then []
    else
      var o := Ordem(cs[..|cs| - 1], chave);
      if chave(cs[|cs| - 1]) in o then o else o + [chave(cs[|cs| - 1])]
  }

  /** The sum of `peso` over the whole list. */
  function Soma<T>(cs: seq<T>, peso: T -> int): int {
    if cs == [] then 0 else Soma(cs[..|cs| - 1], peso) + peso(cs[|cs| - 1])
  }

  /** The sum of `peso` over the elements whose key is `k`. */
  function SomaPor<T, K(==)>(cs: seq<T>, chave: T -> K, k: K, peso: T -> int): int {
    if cs == [] then 0
    else SomaPor(cs[..|cs| - 1], chave, k, peso) + (if chave(cs[|cs| - 1]) == k then peso(cs[|cs| - 1]) else 0)
  }

  /** The per-key sums added up over the keys `ks`. */
  function SomaChaves<T, K(==)>(ks: seq<K>, cs: seq<T>, chave: T -> K, peso: T -> int): int {
    if ks == [] then 0
    else SomaChaves(ks[..|ks| - 1], cs, chave, peso) + SomaPor(cs, chave, ks[|ks| - 1], peso)
  }

  // ---------------------------------------------------------------------------
  // Properties
  // ---------------------------------------------------------------------------

  /** A key is listed exactly when some element carries it. */
  lemma {:induction false} OrdemMembers<T, K>(cs: seq<T>, chave: T -> K, k: K)
    ensures k in Ordem(cs, chave) <==> exists i :: 0 <= i < |cs| && chave(cs[i]) == k
  {
    if cs != [] {
      var ini := cs[..|cs| - 1];
      OrdemMembers(ini, chave, k);
      assert forall i :: 0 <= i < |ini| ==> ini[i] == cs[i];
      if exists i :: 0 <= i < |cs| && chave(cs[i]) == k {
        var i :| 0 <= i < |cs| && chave(cs[i]) == k;
        if i < |ini| {
          assert chave(ini[i]) == k;
        }
      }
    }
  }

  /** Each key is listed once. */
  lemma {:induction false} OrdemDistintos<T, K>(cs: seq<T>, chave: T -> K)
    ensures Distintos(Ordem(cs, chave))
  {
    if cs != [] {
      OrdemDistintos(cs[..|cs| - 1], chave);
    }
  }

  /** A key no element carries sums to zero. */
  lemma {:induction false} SomaPorAusente<T, K>(cs: seq<T>, chave: T -> K, k: K, peso: T -> int)
    requires forall i :: 0 <= i < |cs| ==> chave(cs[i]) != k
    ensures SomaPor(cs, chave, k, peso) == 0
  {
    if cs != [] {
      var ini := cs[..|cs| - 1];
      assert forall i :: 0 <= i < |ini| ==> ini[i] == cs[i];
      SomaPorAusente(ini, chave, k, peso);
    }
  }

  /** Appending one element adds its weight to its own key's sum and to no other. */
  lemma SomaPorSnoc<T, K>(cs: seq<T>, c: T, chave: T -> K, k: K, peso: T -> int)
    ensures SomaPor(cs + [c], chave, k, peso) == SomaPor(cs, chave, k, peso) + (if chave(c) == k then peso(c) else 0)
  {
    assert (cs + [c])[..|cs|] == cs;
  }

  lemma SomaSnoc<T>(cs: seq<T>, c: T, peso: T -> int)
    ensures Soma(cs + [c], peso) == Soma(cs, peso) + peso(c)
  {
    assert (cs + [c])[..|cs|] == cs;
  }

  /** Over distinct keys, a new element is counted once if its key is among them, else not at all. */
  lemma {:induction false} SomaChavesSnoc<T, K>(ks: seq<K>, cs: seq<T>, c: T, chave: T -> K, peso: T -> int)
    requires Distintos(ks)
    ensures SomaChaves(ks, cs + [c], chave, peso)
         == SomaChaves(ks, cs, chave, peso) + (if chave(c) in ks then peso(c) else 0)
  {
    if ks != [] {
      var ini := ks[..|ks| - 1];
      assert Distintos(ini);
      SomaChavesSnoc(ini, cs, c, chave, peso);
      SomaPorSnoc(cs, c, chave, ks[|ks| - 1], peso);
      assert chave(c) in ks <==> chave(c) in ini || chave(c) == ks[|ks| - 1] by {
        assert ks == ini + [ks[|ks| - 1]];
      }
      if chave(c) == ks[|ks| - 1] {
        assert chave(c) !in ini;
      }
    }
  }

  lemma SomaChavesSnocKey<T, K>(ks: seq<K>, k: K, cs: seq<T>, chave: T -> K, peso: T -> int)
    ensures SomaChaves(ks + [k], cs, chave, peso) == SomaChaves(ks, cs, chave, peso) + SomaPor(cs, chave, k, peso)
  {
    assert (ks + [k])[..|ks|] == ks;
  }

  /** The groups partition the list: summed over all keys, the per-key sums give the total. */
  lemma {:induction false} Particao<T, K>(cs: seq<T>, chave: T -> K, peso: T -> int)
    ensures SomaChaves(Ordem(cs, chave), cs, chave, peso) == Soma(cs, peso)
  {
    if cs == [] {
    } else {
      var ini, c := cs[..|cs| - 1], cs[|cs| - 1];
      assert cs == ini + [c];
      var o := Ordem(ini, chave);
      Particao(ini, chave, peso);
      OrdemDistintos(ini, chave);
      SomaChavesSnoc(o, ini, c, chave, peso);
      SomaSnoc(ini, c, peso);
      if chave(c) !in o {
        SomaChavesSnocKey(o, chave(c), cs, chave, peso);
        OrdemMembers(ini, chave, chave(c));
        SomaPorAusente(ini, chave, chave(c), peso);
        SomaPorSnoc(ini, c, chave, chave(c), peso);
      }
    }
  }

  /** With non-negative weights, the sums over any distinct keys never exceed the total. */
  lemma {:induction false} SomaChavesAtMostSoma<T, K>(ks: seq<K>, cs: seq<T>, chave: T -> K, peso: T -> int)
    requires Distintos(ks)
    requires forall i :: 0 <= i < |cs| ==> peso(cs[i]) >= 0
    ensures SomaChaves(ks, cs, chave, peso) <= Soma(cs, peso)
  {
    if cs == [] {
      SomaChavesVazia(ks, chave, peso);
    } else {
      var ini, c := cs[..|cs| - 1], cs[|cs| - 1];
      assert cs == ini + [c];
      assert forall i :: 0 <= i < |ini| ==> ini[i] == cs[i];
      SomaChavesAtMostSoma(ks, ini, chave, peso);
      SomaChavesSnoc(ks, ini, c, chave, peso);
      SomaSnoc(ini, c, peso);
    }
  }

  lemma {:induction false} SomaChavesVazia<T, K>(ks: seq<K>, chave: T -> K, peso: T -> int)
    ensures SomaChaves(ks, [], chave, peso) == 0
  {
    if ks != [] {
      SomaChavesVazia(ks[..|ks| - 1], chave, peso);
    }
  }

  /** With non-negative weights every per-key sum is non-negative. */
  lemma {:induction false} SomaPorNaoNegativa<T, K>(cs: seq<T>, chave: T -> K, k: K, peso: T -> int)
    requires forall i :: 0 <= i < |cs| ==> peso(cs[i]) >= 0
    ensures SomaPor(cs, chave, k, peso) >= 0
  {
    if cs != [] {
      var ini := cs[..|cs| - 1];
      assert forall i :: 0 <= i < |ini| ==> ini[i] == cs[i];
      SomaPorNaoNegativa(ini, chave, k, peso);
    }
  }

  /** With non-negative weights, a key's sum is at least the weight of any element carrying it. */
  lemma {:induction false} SomaPorAtLeast<T, K>(cs: seq<T>, chave: T -> K, k: K, peso: T -> int, i: nat)
    requires i < |cs| && chave(cs[i]) == k
    requires forall j :: 0 <= j < |cs| ==> peso(cs[j]) >= 0
    ensures SomaPor(cs, chave, k, peso) >= peso(cs[i])
  {
    var ini := cs[..|cs| - 1];
    assert forall j :: 0 <= j < |ini| ==> ini[j] == cs[j];
    if i == |cs| - 1 {
      SomaPorNaoNegativa(ini, chave, k, peso);
    } else {
      SomaPorAtLeast(ini, chave, k, peso, i);
    }
  }

  /**
   * A list of groups built key by key: when entry `j` of `r` carries the sum
   * for key `ks[j]`, the entries add up to the per-key sums over `ks`.
   */
  lemma {:induction false} SomaMapeada<R, T, K>(r: seq<R>, f: R -> int, ks: seq<K>, cs: seq<T>, chave: T -> K, peso: T -> int)
    requires |r| == |ks|
    requires forall j :: 0 <= j < |r| ==> f(r[j]) == SomaPor(cs, chave, ks[j], peso)
    ensures Soma(r, f) == SomaChaves(ks, cs, chave, peso)
  {
    if r != [] {
      var n := |r| - 1;
      assert forall j :: 0 <= j < n ==> r[..n][j] == r[j] && ks[..n][j] == ks[j];
      SomaMapeada(r[..n], f, ks[..n], cs, chave, peso);
    }
  }
}

/**
 * The patient list screen (`Pacientes`): the text filter over the loaded
 * patients and the ten-per-page pagination of the filtered list.
 */
module PatientList {
  import opened Common
  import opened Domain

  const ItensPorPagina: nat := 10

  // ---------------------------------------------------------------------------
  // Filter
  // ---------------------------------------------------------------------------

  /**
   * The test of `filterPacientes`: name or e-mail contain the term ignoring
   * case, or CPF or phone contain it verbatim; an empty e-mail never matches.
   */
  predicate Corresponde(d: PacienteDoc, termo: string) {
    || Contains(Lower(d.dados.nome), Lower(termo))
    || Contains(d.dados.cpf, termo)
    || Contains(d.dados.telefone, termo)
    || (d.dados.email != "" && Contains(Lower(d.dados.email), Lower(termo)))
  }

  function Criterio(termo: string): PacienteDoc -> bool {
    d => Corresponde(d, termo)
  }

  /** The screen state `filterPacientes` writes: the filtered list and the current page. */
  datatype Vista = Vista(filtrados: seq<PacienteDoc>, pagina: int)

  /**
   * `filterPacientes()`: an empty term shows every patient and keeps the page;
   * otherwise the matching patients, in list order, from page 1.
   */
  function FilterPacientes(pacientes: seq<PacienteDoc>, termo: string, pagina: int): (v: Vista)
    ensures termo == "" ==> v == Vista(pacientes, pagina)
    ensures termo != "" ==> v.pagina == 1
    ensures Subsequence(v.filtrados, pacientes)
    ensures forall k :: 0 <= k < |v.filtrados| ==> v.filtrados[k] in pacientes
    ensures termo != "" ==> forall k :: 0 <= k < |v.filtrados| ==> Corresponde(v.filtrados[k], termo)
    ensures forall k :: 0 <= k < |pacientes| && Corresponde(pacientes[k], termo) ==> pacientes[k] in v.filtrados
  {
    if termo == "" then
      SubsequenceRefl(pacientes);
      Vista(pacientes, pagina)
    else
      Vista(Filter(pacientes, Criterio(termo)), 1)
  }

  lemma {:induction false} SubsequenceRefl<T>(s: seq<T>)
    ensures Subsequence(s, s)
  {
    if s != [] {
      SubsequenceRefl(s[1..]);
    }
  }

  /** Filtering the filtered list again by the same term changes nothing. */
  lemma FilterPacientesIdempotent(pacientes: seq<PacienteDoc>, termo: string, pagina: int)
    ensures var v := FilterPacientes(pacientes, termo, pagina);
      FilterPacientes(v.filtrados, termo, v.pagina) == v
  {
    if termo != "" {
      FilterIdempotent(pacientes, Criterio(termo));
    }
  }

  /** Every patient's name contains the empty term. */
  lemma EmptyTermMatchesEveryone(d: PacienteDoc)
    ensures Corresponde(d, "")
  {
    assert StartsWith(Lower(d.dados.nome), Lower(""));
  }

  /** The empty-term shortcut shows what filtering by the empty term would: the whole list. */
  lemma EmptyTermShortcutAgrees(pacientes: seq<PacienteDoc>, pagina: int)
    ensures Filter(pacientes, Criterio("")) == FilterPacientes(pacientes, "", pagina).filtrados
  {
    forall k | 0 <= k < |pacientes|
      ensures Criterio("")(pacientes[k])
    {
      EmptyTermMatchesEveryone(pacientes[k]);
    }
    FilterKeepsAll(pacientes, Criterio(""));
  }

  // ---------------------------------------------------------------------------
  // Pagination
  // ---------------------------------------------------------------------------

  /** A `slice` index resolved against a length: negative counts from the end, then clamped. */
  function SliceIndex(i: int, n: nat): (r: nat)
    ensures r <= n
  {
    if i < 0 then (if n + i < 0 then 0 else n + i) else if i > n then n else i
  }

  /** `s.slice(i, j)`. */
  function Slice<T>(s: seq<T>, i: int, j: int): seq<T> {
    var a, b := SliceIndex(i, |s|), SliceIndex(j, |s|);
    if a < b then s[a..b] else []
  }

  /** `currentPacientes`: the slice `[(p - 1) * 10, p * 10)` of the filtered list. */
  function PaginaAtual<T>(s: seq<T>, pagina: int): (r: seq<T>)
    ensures |r| <= ItensPorPagina
    ensures pagina >= 1 ==> |r| == Clamp(|s| - (pagina - 1) * ItensPorPagina, ItensPorPagina)
    ensures pagina >= 1 ==> forall k :: 0 <= k < |r| ==> r[k] == s[(pagina - 1) * ItensPorPagina + k]
  {
    Slice(s, pagina * ItensPorPagina - ItensPorPagina, pagina * ItensPorPagina)
  }

  /** `x` clamped to `[0, hi]`. */
  function Clamp(x: int, hi: nat): nat {
    if x < 0 then 0 else if x > hi then hi else x
  }

  /** `Math.ceil(n / 10)`. */
  function TotalPages(n: nat): (t: nat)
    ensures n == 0 <==> t == 0
    ensures t > 0 ==> (t - 1) * ItensPorPagina < n <= t * ItensPorPagina
  {
    (n + ItensPorPagina - 1) / ItensPorPagina
  }

  /** "Anterior": `Math.max(p - 1, 1)`. */
  function Anterior(p: int): int {
    if p - 1 > 1 then p - 1 else 1
  }

  /** "Próxima": `Math.min(p + 1, totalPages)`. */
  function Proxima(p: int, totalPages: int): int {
    if p + 1 < totalPages then p + 1 else totalPages
  }

  /** Both buttons keep a page inside `[1, totalPages]` and move it by at most one. */
  lemma NavigationStaysInRange(p: int, totalPages: int)
    requires 1 <= p <= totalPages
    ensures 1 <= Anterior(p) <= totalPages && 1 <= Proxima(p, totalPages) <= totalPages
    ensures Anterior(p) == (if p > 1 then p - 1 else 1)
    ensures Proxima(p, totalPages) == (if p < totalPages then p + 1 else totalPages)
  {
  }

  /** Pages 1 to k laid end to end. */
  function Paginas<T>(s: seq<T>, k: nat): seq<T> {
    if k == 0 then [] else Paginas(s, k - 1) + PaginaAtual(s, k)
  }

  lemma {:induction false} PaginasPrefix<T>(s: seq<T>, k: nat)
    ensures Paginas(s, k) == s[..if k * ItensPorPagina <= |s| then k * ItensPorPagina else |s|]
  {
    if k > 0 {
      PaginasPrefix(s, k - 1);
      var lo := (k - 1) * ItensPorPagina;
      var p := PaginaAtual(s, k);
      if lo <= |s| {
        var hi := if k * ItensPorPagina <= |s| then k * ItensPorPagina else |s|;
        assert p == s[lo..hi];
        assert s[..lo] + s[lo..hi] == s[..hi];
      } else {
        assert p == [];
      }
    }
  }

  /** Laying the pages 1 to totalPages end to end gives back the whole filtered list: nothing is lost or repeated. */
  lemma PagesCoverList<T>(s: seq<T>)
    ensures Paginas(s, TotalPages(|s|)) == s
  {
    PaginasPrefix(s, TotalPages(|s|));
  }

  /** A page beyond the last is empty (after the list shrinks without a new term, the page is not reset). */
  lemma PageBeyondLastIsEmpty<T>(s: seq<T>, p: int)
    requires p > TotalPages(|s|)
    ensures PaginaAtual(s, p) == []
  {
  }
}

/**
 * `PacienteService.buscarPacientes(clinicaId, termo)`: the clinic's active
 * patients in name order, capped at ten by the query, then filtered locally
 * by a case-insensitive name match or a CPF or phone substring.
 *
 * The cap is applied by the query, before the text filter, so a matching
 * patient who is not among the first ten names is never found
 * (`LimitBeforeFilterMissesMatch`). `BuscarPacientes` is the search with the
 * cap applied to the matches instead, and is the one the rest of the model
 * uses.
 */
module PatientSearch {
  import opened Common
  import opened Domain

  /** `limit(10)` in the query. */
  const LimiteBusca: nat := 10

  /** The local filter of `buscarPacientes`: a falsy CPF or phone never matches. */
  predicate Corresponde(d: PacienteDoc, termo: string) {
    || Contains(Lower(d.dados.nome), Lower(termo))
    || (d.dados.cpf != "" && Contains(d.dados.cpf, termo))
    || (d.dados.telefone != "" && Contains(d.dados.telefone, termo))
  }

  function Criterio(termo: string): PacienteDoc -> bool {
    d => Corresponde(d, termo)
  }

  function Correspondentes(docs: seq<PacienteDoc>, termo: string): seq<PacienteDoc> {
    Filter(docs, Criterio(termo))
  }

  /**
   * The code as written. `docs` is the clinic's active patients in the
   * query's name order, without the cap.
   */
  function BuscarPacientesAsWritten(docs: seq<PacienteDoc>, termo: string): seq<PacienteDoc> {
    Correspondentes(Take(docs, LimiteBusca), termo)
  }

  /** The search with the cap applied to the matching patients. */
  function BuscarPacientes(docs: seq<PacienteDoc>, termo: string): seq<PacienteDoc> {
    Take(Correspondentes(docs, termo), LimiteBusca)
  }

  function Doc(id: string, nome: string): PacienteDoc {
    PacienteDoc(id, Paciente(nome, "", "", "", "c1", true, 0, 0))
  }

  /** Ten patients named "ana". */
  function DezAnas(): (r: seq<PacienteDoc>)
    ensures |r| == 10
  {
    [Doc("1", "ana"), Doc("2", "ana"), Doc("3", "ana"), Doc("4", "ana"), Doc("5", "ana"),
     Doc("6", "ana"), Doc("7", "ana"), Doc("8", "ana"), Doc("9", "ana"), Doc("10", "ana")]
  }

  /** Eleven patients in name order whose only match for "zeca" is the eleventh. */
  function OnzePacientes(): seq<PacienteDoc> {
    DezAnas() + [Doc("11", "zeca")]
  }

  lemma AnaIsNotZeca(id: string)
    ensures !Corresponde(Doc(id, "ana"), "zeca")
  {
    assert Lower("ana") == "ana";
    assert Lower("zeca") == "zeca";
  }

  lemma ZecaIsZeca(id: string)
    ensures Corresponde(Doc(id, "zeca"), "zeca")
  {
    assert Lower("zeca") == "zeca";
    assert StartsWith("zeca", "zeca");
  }

  lemma DezAnasDoNotMatch()
    ensures Correspondentes(DezAnas(), "zeca") == []
  {
    var first := DezAnas();
    forall k | 0 <= k < 10
      ensures !Corresponde(first[k], "zeca")
    {
      assert first[k].dados.nome == "ana";
      AnaIsNotZeca(first[k].id);
    }
    FilterKeepsNone(first, Criterio("zeca"));
  }

  /** As written, searching "zeca" among those eleven finds nobody. */
  lemma LimitBeforeFilterMissesMatch()
    ensures BuscarPacientesAsWritten(OnzePacientes(), "zeca") == []
  {
    DezAnasDoNotMatch();
    assert Take(OnzePacientes(), LimiteBusca) == DezAnas();
  }

  /** The corrected search finds the eleventh. */
  lemma CorrectedSearchFindsMatch()
    ensures BuscarPacientes(OnzePacientes(), "zeca") == [Doc("11", "zeca")]
  {
    var zeca := Doc("11", "zeca");
    DezAnasDoNotMatch();
    ZecaIsZeca("11");
    FilterAppend(DezAnas(), [zeca], Criterio("zeca"));
    assert Filter([zeca], Criterio("zeca")) == [zeca];
  }

  /**
   * The corrected search returns the first ten matching patients in name
   * order (all of them when fewer match), matching patients only, and every
   * match when there are at most ten.
   */
  lemma BuscarPacientesCorrect(docs: seq<PacienteDoc>, termo: string)
    ensures Subsequence(BuscarPacientes(docs, termo), Correspondentes(docs, termo))
    ensures |BuscarPacientes(docs, termo)| <= LimiteBusca
    ensures |BuscarPacientes(docs, termo)|
      == (if |Correspondentes(docs, termo)| <= LimiteBusca then |Correspondentes(docs, termo)| else LimiteBusca)
    ensures BuscarPacientes(docs, termo) == Correspondentes(docs, termo)[..|BuscarPacientes(docs, termo)|]
    ensures forall k :: 0 <= k < |BuscarPacientes(docs, termo)| ==>
      BuscarPacientes(docs, termo)[k] in docs && Corresponde(BuscarPacientes(docs, termo)[k], termo)
    ensures |Correspondentes(docs, termo)| <= LimiteBusca ==>
      forall k :: 0 <= k < |docs| && Corresponde(docs[k], termo) ==> docs[k] in BuscarPacientes(docs, termo)
  {
    var m := Correspondentes(docs, termo);
    TakeIsPrefix(m, LimiteBusca);
    PrefixIsSubsequence(Take(m, LimiteBusca), m);
  }

  /** With at most ten patients in the clinic, the cap makes no difference to the search as written. */
  lemma AsWrittenAgreesForSmallClinics(docs: seq<PacienteDoc>, termo: string)
    requires |docs| <= LimiteBusca
    ensures BuscarPacientesAsWritten(docs, termo) == BuscarPacientes(docs, termo)
  {
  }

  lemma TakeIsPrefix<T>(s: seq<T>, n: nat)
    ensures Take(s, n) == s[..|Take(s, n)|]
  {
  }

  lemma {:induction false} PrefixIsSubsequence<T>(a: seq<T>, b: seq<T>)
    requires |a| <= |b| && a == b[..|a|]
    ensures Subsequence(a, b)
  {
    if a != [] {
      assert a[1..] == b[1..][..|a| - 1];
      PrefixIsSubsequence(a[1..], b[1..]);
    }
  }
}

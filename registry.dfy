/**
 * The create and delete guards of `PacienteService` and `MedicoService` over
 * in-memory tables standing for the `pacientes` and `medicos` collections.
 *
 * Each guard is a query followed by a write: `criarPaciente` refuses a CPF an
 * active patient of the same clinic already holds, `criarMedico` refuses a
 * CRM an active doctor already holds, and `deletePaciente` refuses a patient
 * with future consultations and otherwise only marks the record inactive.
 * Document ids, which the database generates, and the current time are
 * parameters.
 */
module Registry {
  import opened Common
  import opened Domain

  // ---------------------------------------------------------------------------
  // The queries the guards run
  // ---------------------------------------------------------------------------

  /** `buscarPorCPF(clinicaId, cpf)` finds a record: an active patient of that clinic with exactly that CPF. */
  predicate CpfEmUso(pacientes: map<string, Paciente>, clinicaId: string, cpf: string) {
    exists id :: id in pacientes && pacientes[id].ativo && pacientes[id].clinicaId == clinicaId
                 && pacientes[id].cpf == cpf
  }

  /** `buscarPorCRM(crm)` finds a record: an active doctor, of any clinic, with exactly that CRM. */
  predicate CrmEmUso(medicos: map<string, Medico>, crm: string) {
    exists id :: id in medicos && medicos[id].ativo && medicos[id].crm == crm
  }

  /** The calendar-holding consultations of a patient strictly after `agora`. */
  predicate Futura(c: Consulta, pacienteId: string, agora: int) {
    c.pacienteId == pacienteId && c.dataHora > agora && HoldsCalendar(c.status)
  }

  /** `getConsultasFuturas(pacienteId)` over the consultations collection, in collection order. */
  function GetConsultasFuturas(consultas: seq<Consulta>, pacienteId: string, agora: int): (r: seq<Consulta>)
    ensures |r| <= |consultas|
    ensures forall c :: c in r <==> c in consultas && Futura(c, pacienteId, agora)
  {
    if consultas == [] then []
    else
      var rest := GetConsultasFuturas(consultas[1..], pacienteId, agora);
      assert forall c :: c in consultas <==> c == consultas[0] || c in consultas[1..];
      if Futura(consultas[0], pacienteId, agora) then [consultas[0]] + rest else rest
  }

  // ---------------------------------------------------------------------------
  // Table invariants
  // ---------------------------------------------------------------------------

  /** No two active patients of one clinic share a non-empty CPF. */
  predicate CpfsUnicos(pacientes: map<string, Paciente>) {
    forall a, b :: a in pacientes && b in pacientes && a != b
      && pacientes[a].ativo && pacientes[b].ativo
      && pacientes[a].clinicaId == pacientes[b].clinicaId && pacientes[a].cpf != ""
      ==> pacientes[a].cpf != pacientes[b].cpf
  }

  /** No two active doctors share a CRM. */
  predicate CrmsUnicos(medicos: map<string, Medico>) {
    forall a, b :: a in medicos && b in medicos && a != b && medicos[a].ativo && medicos[b].ativo
      ==> medicos[a].crm != medicos[b].crm
  }

  /** The record `criarPaciente` writes: the given fields, active, stamped with the creation time. */
  function NovoPaciente(dados: Paciente, agora: int): Paciente {
    dados.(ativo := true, criadoEm := agora, atualizadoEm := agora)
  }

  /** The record `criarMedico` writes. */
  function NovoMedico(dados: Medico, agora: int): Medico {
    dados.(ativo := true, criadoEm := agora)
  }

  /** Inserting a patient whose CPF passed the guard keeps CPFs unique. */
  lemma InserirPacientePreservaCpfs(pacientes: map<string, Paciente>, id: string, dados: Paciente, agora: int)
    requires CpfsUnicos(pacientes) && id !in pacientes
    requires dados.cpf == "" || !CpfEmUso(pacientes, dados.clinicaId, dados.cpf)
    ensures CpfsUnicos(pacientes[id := NovoPaciente(dados, agora)])
  {
    var ps := pacientes[id := NovoPaciente(dados, agora)];
    forall a, b | a in ps && b in ps && a != b && ps[a].ativo && ps[b].ativo
      && ps[a].clinicaId == ps[b].clinicaId && ps[a].cpf != ""
      ensures ps[a].cpf != ps[b].cpf
    {
      if a == id {
        assert pacientes[b].ativo && pacientes[b].clinicaId == dados.clinicaId;
      } else if b == id {
        assert pacientes[a].ativo && pacientes[a].clinicaId == dados.clinicaId;
      }
    }
  }

  /** Without the guard, a second active patient with the same CPF breaks uniqueness. */
  lemma InserirSemGuardaQuebraCpfs(pacientes: map<string, Paciente>, id: string, dados: Paciente, agora: int)
    requires id !in pacientes && dados.cpf != "" && CpfEmUso(pacientes, dados.clinicaId, dados.cpf)
    ensures !CpfsUnicos(pacientes[id := NovoPaciente(dados, agora)])
  {
    var outro :| outro in pacientes && pacientes[outro].ativo && pacientes[outro].clinicaId == dados.clinicaId
                 && pacientes[outro].cpf == dados.cpf;
    var ps := pacientes[id := NovoPaciente(dados, agora)];
    assert ps[id].cpf == ps[outro].cpf && id != outro;
  }

  /** Deactivating a patient keeps CPFs unique. */
  lemma DesativarPacientePreservaCpfs(pacientes: map<string, Paciente>, id: string, agora: int)
    requires CpfsUnicos(pacientes) && id in pacientes
    ensures CpfsUnicos(pacientes[id := pacientes[id].(ativo := false, atualizadoEm := agora)])
  {
  }

  /** Inserting a doctor whose CRM passed the guard keeps CRMs unique. */
  lemma InserirMedicoPreservaCrms(medicos: map<string, Medico>, id: string, dados: Medico, agora: int)
    requires CrmsUnicos(medicos) && id !in medicos && !CrmEmUso(medicos, dados.crm)
    ensures CrmsUnicos(medicos[id := NovoMedico(dados, agora)])
  {
    var ms := medicos[id := NovoMedico(dados, agora)];
    forall a, b | a in ms && b in ms && a != b && ms[a].ativo && ms[b].ativo
      ensures ms[a].crm != ms[b].crm
    {
      if a == id {
        assert medicos[b].ativo;
      } else if b == id {
        assert medicos[a].ativo;
      }
    }
  }

  // ---------------------------------------------------------------------------
  // The tables
  // ---------------------------------------------------------------------------

  class Registro {
    var pacientes: map<string, Paciente>
    var medicos: map<string, Medico>

    ghost predicate Valid()
      reads this
    {
      CpfsUnicos(pacientes) && CrmsUnicos(medicos)
    }

    constructor ()
      ensures Valid()
      ensures pacientes == map[] && medicos == map[]
    {
      pacientes := map[];
      medicos := map[];
    }

    /**
     * `criarPaciente(dados)`: a non-empty CPF already held by an active
     * patient of the same clinic is refused; otherwise the record is written
     * under the new id, which is returned.
     */
    method CriarPaciente(dados: Paciente, novoId: string, agora: int) returns (r: Result<string, Erro>)
      requires Valid() && novoId !in pacientes
      modifies this
      ensures Valid()
      ensures medicos == old(medicos)
      ensures r.Err? <==> dados.cpf != "" && CpfEmUso(old(pacientes), dados.clinicaId, dados.cpf)
      ensures r.Err? ==> r.error == CpfDuplicado && pacientes == old(pacientes)
      ensures r.Ok? ==> r.value == novoId && pacientes == old(pacientes)[novoId := NovoPaciente(dados, agora)]
    {
      if dados.cpf != "" && CpfEmUso(pacientes, dados.clinicaId, dados.cpf) {
        return Err(CpfDuplicado);
      }
      InserirPacientePreservaCpfs(pacientes, novoId, dados, agora);
      pacientes := pacientes[novoId := NovoPaciente(dados, agora)];
      return Ok(novoId);
    }

    /**
     * `criarMedico(dados)`: a CRM already held by an active doctor is refused
     * (the check runs whatever the CRM is); otherwise the record is written.
     */
    method CriarMedico(dados: Medico, novoId: string, agora: int) returns (r: Result<string, Erro>)
      requires Valid() && novoId !in medicos
      modifies this
      ensures Valid()
      ensures pacientes == old(pacientes)
      ensures r.Err? <==> CrmEmUso(old(medicos), dados.crm)
      ensures r.Err? ==> r.error == CrmDuplicado && medicos == old(medicos)
      ensures r.Ok? ==> r.value == novoId && medicos == old(medicos)[novoId := NovoMedico(dados, agora)]
    {
      if CrmEmUso(medicos, dados.crm) {
        return Err(CrmDuplicado);
      }
      InserirMedicoPreservaCrms(medicos, novoId, dados, agora);
      medicos := medicos[novoId := NovoMedico(dados, agora)];
      return Ok(novoId);
    }

    /**
     * `deletePaciente(id)`: refused while the patient has future consultations
     * that hold the calendar; otherwise a soft delete that sets `ativo` to
     * false (and stamps `atualizadoEm`), leaving every other record and field
     * as it was. Updating a document that does not exist fails.
     */
    method DeletePaciente(id: string, consultas: seq<Consulta>, agora: int) returns (r: Result<(), Erro>)
      requires Valid()
      modifies this
      ensures Valid()
      ensures medicos == old(medicos)
      ensures |GetConsultasFuturas(consultas, id, agora)| > 0 ==> r == Err(ConsultasFuturas) && pacientes == old(pacientes)
      ensures |GetConsultasFuturas(consultas, id, agora)| == 0 && id !in old(pacientes) ==>
                r == Err(PacienteNaoEncontrado) && pacientes == old(pacientes)
      ensures |GetConsultasFuturas(consultas, id, agora)| == 0 && id in old(pacientes) ==>
                r.Ok? && pacientes == old(pacientes)[id := old(pacientes)[id].(ativo := false, atualizadoEm := agora)]
    {
      var futuras := GetConsultasFuturas(consultas, id, agora);
      if |futuras| > 0 {
        return Err(ConsultasFuturas);
      }
      if id !in pacientes {
        return Err(PacienteNaoEncontrado);
      }
      DesativarPacientePreservaCpfs(pacientes, id, agora);
      pacientes := pacientes[id := pacientes[id].(ativo := false, atualizadoEm := agora)];
      return Ok(());
    }
  }

  /** A patient with a future calendar-holding consultation cannot be deleted; past or cancelled ones do not block. */
  lemma FuturasBloqueiamExclusao(consultas: seq<Consulta>, id: string, agora: int)
    ensures |GetConsultasFuturas(consultas, id, agora)| > 0 <==>
      exists k :: 0 <= k < |consultas| && Futura(consultas[k], id, agora)
  {
    var r := GetConsultasFuturas(consultas, id, agora);
    if |r| > 0 {
      assert r[0] in r;
      var k :| 0 <= k < |consultas| && consultas[k] == r[0];
    }
    if exists k :: 0 <= k < |consultas| && Futura(consultas[k], id, agora) {
      var k :| 0 <= k < |consultas| && Futura(consultas[k], id, agora);
      assert consultas[k] in r;
    }
  }
}

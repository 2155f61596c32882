/**
 * `AgendamentoModal`: the three-step booking wizard (1 patient, 2 details,
 * 3 confirmation). Its component state is the fields of `Agendamento`; each
 * handler is a method. The buttons of the footer are shown only on the steps
 * where they make sense ("Voltar" when `step > 1`, "Próximo" when
 * `step < 3`), and the inputs of a step only while that step is shown; the
 * preconditions say so.
 */
module Wizard {
  import opened Common
  import opened Domain

  datatype NovoPaciente = NovoPaciente(
    nome: string, cpf: string, telefone: string, whatsapp: string,
    email: string, dataNascimento: string, sexo: string)

  const NovoPacienteVazio: NovoPaciente := NovoPaciente("", "", "", "", "", "", "M")

  const DuracaoPadrao: int := 30
  const TipoPadrao: string := "primeira-vez"

  const ErroPaciente: string := "Selecione um paciente ou marque \"Novo Paciente\""
  const ErroNome: string := "Preencha o nome do paciente"
  const ErroCampos: string := "Preencha todos os campos obrigatórios"

  /** Step 1 is complete: an existing patient chosen, or a new one with a name. */
  predicate PacienteEscolhido(pacienteNovo: bool, pacienteId: string, nome: string) {
    if pacienteNovo then nome != "" else pacienteId != ""
  }

  /** Step 2 is complete: doctor, date and reason filled in. */
  predicate DetalhesPreenchidos(medicoId: string, dataHora: string, motivo: string) {
    medicoId != "" && dataHora != "" && motivo != ""
  }

  /**
   * The guards of `handleNextStep`: the message it shows, or `None` when the
   * step may advance. Only steps 1 and 2 have a guard.
   */
  function ErroAoAvancar(step: int, pacienteNovo: bool, pacienteId: string, nome: string,
                         medicoId: string, dataHora: string, motivo: string): (r: Option<string>)
    ensures step == 1 ==> (r.None? <==> PacienteEscolhido(pacienteNovo, pacienteId, nome))
    ensures step == 2 ==> (r.None? <==> DetalhesPreenchidos(medicoId, dataHora, motivo))
    ensures step != 1 && step != 2 ==> r.None?
    ensures r.Some? ==> r.value in {ErroPaciente, ErroNome, ErroCampos}
    ensures step == 1 && !pacienteNovo && pacienteId == "" ==> r == Some(ErroPaciente)
    ensures step == 1 && pacienteNovo && nome == "" ==> r == Some(ErroNome)
  {
    if step == 1 && !pacienteNovo && pacienteId == "" then Some(ErroPaciente)
    else if step == 1 && pacienteNovo && nome == "" then Some(ErroNome)
    else if step == 2 && (medicoId == "" || dataHora == "" || motivo == "") then Some(ErroCampos)
    else None
  }

  class Agendamento {
    var step: int
    var error: string
    var pacienteId: string
    var pacienteNovo: bool
    var medicoId: string
    var dataHora: string
    var duracao: int
    var motivo: string
    var observacoes: string
    var tipoConsulta: string
    var searchTerm: string
    var pacientes: seq<PacienteDoc>
    var selectedPaciente: Option<PacienteDoc>
    var novoPaciente: NovoPaciente

    /**
     * The step stays in 1..3, and a step is reached only with the earlier
     * steps complete (the inputs of an earlier step cannot change once it is
     * left, as they are no longer shown).
     */
    ghost predicate Valid()
      reads this
    {
      && 1 <= step <= 3
      && (step >= 2 ==> PacienteEscolhido(pacienteNovo, pacienteId, novoPaciente.nome))
      && (step == 3 ==> DetalhesPreenchidos(medicoId, dataHora, motivo))
    }

    /** Every field at its initial value. */
    ghost predicate Inicial()
      reads this
    {
      && step == 1 && error == "" && pacienteId == "" && !pacienteNovo && medicoId == ""
      && dataHora == "" && duracao == DuracaoPadrao && motivo == "" && observacoes == ""
      && tipoConsulta == TipoPadrao && searchTerm == "" && pacientes == [] && selectedPaciente.None?
      && novoPaciente == NovoPacienteVazio
    }

    constructor ()
      ensures Inicial() && Valid()
    {
      step := 1;
      error := "";
      pacienteId := "";
      pacienteNovo := false;
      medicoId := "";
      dataHora := "";
      duracao := DuracaoPadrao;
      motivo := "";
      observacoes := "";
      tipoConsulta := TipoPadrao;
      searchTerm := "";
      pacientes := [];
      selectedPaciente := None;
      novoPaciente := NovoPacienteVazio;
    }

    /** `handleNextStep` ("Próximo"): advance by one and clear the error, or stay and show the guard's message. */
    method HandleNextStep()
      requires Valid() && step < 3
      modifies this
      ensures Valid()
      ensures var e := ErroAoAvancar(old(step), pacienteNovo, pacienteId, novoPaciente.nome, medicoId, dataHora, motivo);
        if e.Some? then step == old(step) && error == e.value
        else step == old(step) + 1 && error == ""
      ensures pacienteId == old(pacienteId) && pacienteNovo == old(pacienteNovo) && medicoId == old(medicoId)
      ensures dataHora == old(dataHora) && duracao == old(duracao) && motivo == old(motivo)
      ensures observacoes == old(observacoes) && tipoConsulta == old(tipoConsulta) && searchTerm == old(searchTerm)
      ensures pacientes == old(pacientes) && selectedPaciente == old(selectedPaciente) && novoPaciente == old(novoPaciente)
    {
      if step == 1 {
        if !pacienteNovo && pacienteId == "" {
          error := ErroPaciente;
          return;
        }
        if pacienteNovo && novoPaciente.nome == "" {
          error := ErroNome;
          return;
        }
      }
      if step == 2 {
        if medicoId == "" || dataHora == "" || motivo == "" {
          error := ErroCampos;
          return;
        }
      }
      error := "";
      step := step + 1;
    }

    /** `handlePrevStep` ("Voltar"): back by one, error cleared. */
    method HandlePrevStep()
      requires Valid() && step > 1
      modifies this
      ensures Valid()
      ensures step == old(step) - 1 && error == ""
      ensures pacienteId == old(pacienteId) && pacienteNovo == old(pacienteNovo) && medicoId == old(medicoId)
      ensures dataHora == old(dataHora) && duracao == old(duracao) && motivo == old(motivo)
      ensures observacoes == old(observacoes) && tipoConsulta == old(tipoConsulta) && searchTerm == old(searchTerm)
      ensures pacientes == old(pacientes) && selectedPaciente == old(selectedPaciente) && novoPaciente == old(novoPaciente)
    {
      step := step - 1;
      error := "";
    }

    /** `resetForm`: every field back to its initial value. */
    method ResetForm()
      modifies this
      ensures Inicial() && Valid()
    {
      step := 1;
      pacienteId := "";
      pacienteNovo := false;
      medicoId := "";
      dataHora := "";
      duracao := DuracaoPadrao;
      motivo := "";
      observacoes := "";
      tipoConsulta := TipoPadrao;
      searchTerm := "";
      pacientes := [];
      selectedPaciente := None;
      novoPaciente := NovoPacienteVazio;
      error := "";
    }

    /** `searchPacientes`: the search results replace the list shown. */
    method SetPacientes(results: seq<PacienteDoc>)
      requires Valid()
      modifies this
      ensures Valid()
      ensures pacientes == results
      ensures step == old(step) && error == old(error) && pacienteId == old(pacienteId) && pacienteNovo == old(pacienteNovo)
      ensures medicoId == old(medicoId) && dataHora == old(dataHora) && duracao == old(duracao) && motivo == old(motivo)
      ensures observacoes == old(observacoes) && tipoConsulta == old(tipoConsulta) && searchTerm == old(searchTerm)
      ensures selectedPaciente == old(selectedPaciente) && novoPaciente == old(novoPaciente)
    {
      pacientes := results;
    }

    /** `handlePacienteSelect(paciente)`: choose a search result; the search box shows its name and the list closes. */
    method HandlePacienteSelect(paciente: PacienteDoc)
      requires Valid() && step == 1
      modifies this
      ensures Valid()
      ensures selectedPaciente == Some(paciente) && pacienteId == paciente.id
      ensures searchTerm == paciente.dados.nome && pacientes == []
      ensures step == 1 && error == old(error) && pacienteNovo == old(pacienteNovo) && novoPaciente == old(novoPaciente)
      ensures medicoId == old(medicoId) && dataHora == old(dataHora) && duracao == old(duracao) && motivo == old(motivo)
      ensures observacoes == old(observacoes) && tipoConsulta == old(tipoConsulta)
    {
      selectedPaciente := Some(paciente);
      pacienteId := paciente.id;
      searchTerm := paciente.dados.nome;
      pacientes := [];
    }

    /** Step 1 inputs: the search box, the "Novo Paciente" checkbox and the new patient's form. */
    method EditarPaciente(termo: string, novo: bool, dados: NovoPaciente)
      requires Valid() && step == 1
      modifies this
      ensures Valid()
      ensures searchTerm == termo && pacienteNovo == novo && novoPaciente == dados
      ensures step == 1 && error == old(error) && pacienteId == old(pacienteId) && selectedPaciente == old(selectedPaciente)
      ensures medicoId == old(medicoId) && dataHora == old(dataHora) && duracao == old(duracao) && motivo == old(motivo)
      ensures observacoes == old(observacoes) && tipoConsulta == old(tipoConsulta) && pacientes == old(pacientes)
    {
      searchTerm := termo;
      pacienteNovo := novo;
      novoPaciente := dados;
    }

    /** Step 2 inputs: doctor, date and time, length, kind, reason and notes. */
    method EditarDetalhes(medico: string, quando: string, minutos: int, tipo: string, razao: string, notas: string)
      requires Valid() && step == 2
      modifies this
      ensures Valid()
      ensures medicoId == medico && dataHora == quando && duracao == minutos
      ensures tipoConsulta == tipo && motivo == razao && observacoes == notas
      ensures step == 2 && error == old(error) && pacienteId == old(pacienteId) && pacienteNovo == old(pacienteNovo)
      ensures searchTerm == old(searchTerm) && pacientes == old(pacientes) && selectedPaciente == old(selectedPaciente)
      ensures novoPaciente == old(novoPaciente)
    {
      medicoId := medico;
      dataHora := quando;
      duracao := minutos;
      tipoConsulta := tipo;
      motivo := razao;
      observacoes := notas;
    }
  }
}

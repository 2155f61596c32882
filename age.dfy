/**
 * `calcularIdade` of the patient details page: the age, in whole years, on
 * today's date. Dates are calendar triples (`getFullYear`, `getMonth`,
 * `getDate`); today is a parameter.
 */
module Age {
  import opened Common

  datatype Data = Data(ano: int, mes: int, dia: int)

  /** `a` falls on or before `b` in calendar order. */
  predicate NaoDepois(a: Data, b: Data) {
    a.ano < b.ano || (a.ano == b.ano && (a.mes < b.mes || (a.mes == b.mes && a.dia <= b.dia)))
  }

  /** The `n`-th anniversary of a date. */
  function Aniversario(d: Data, n: int): Data {
    Data(d.ano + n, d.mes, d.dia)
  }

  /**
   * The age: the year difference, minus one while this year's anniversary is
   * still ahead (an earlier month, or the same month and an earlier day).
   */
  method Idade(nascimento: Data, hoje: Data) returns (idade: int)
    ensures NaoDepois(Aniversario(nascimento, idade), hoje)
    ensures !NaoDepois(Aniversario(nascimento, idade + 1), hoje)
  {
    idade := hoje.ano - nascimento.ano;
    var mes := hoje.mes - nascimento.mes;
    if mes < 0 || (mes == 0 && hoje.dia < nascimento.dia) {
      idade := idade - 1;
    }
  }

  /** The completed years are unique: at most one `n` satisfies the two conditions of `Idade`. */
  lemma {:induction false} AnosCompletosUnicos(nascimento: Data, hoje: Data, m: int, n: int)
    requires NaoDepois(Aniversario(nascimento, m), hoje) && !NaoDepois(Aniversario(nascimento, m + 1), hoje)
    requires NaoDepois(Aniversario(nascimento, n), hoje) && !NaoDepois(Aniversario(nascimento, n + 1), hoje)
    ensures m == n
  {
    if m < n {
      AniversarioMonotono(nascimento, m + 1, n, hoje);
    } else if n < m {
      AniversarioMonotono(nascimento, n + 1, m, hoje);
    }
  }

  /** An earlier anniversary comes first. */
  lemma AniversarioMonotono(d: Data, i: int, j: int, hoje: Data)
    requires i <= j && NaoDepois(Aniversario(d, j), hoje)
    ensures NaoDepois(Aniversario(d, i), hoje)
  {
  }

  /** `calcularIdade(dataNascimento)`: 'Não informado' without a birth date, otherwise "<idade> anos". */
  method CalcularIdade(dataNascimento: Option<Data>, hoje: Data) returns (r: string)
    ensures dataNascimento.None? <==> r == "Não informado"
    ensures dataNascimento.Some? ==> exists idade ::
      && r == IntToString(idade) + " anos"
      && NaoDepois(Aniversario(dataNascimento.value, idade), hoje)
      && !NaoDepois(Aniversario(dataNascimento.value, idade + 1), hoje)
  {
    if dataNascimento.None? {
      return "Não informado";
    }
    var idade := Idade(dataNascimento.value, hoje);
    r := IntToString(idade) + " anos";
    assert r[|r| - 5..] == " anos";
  }

  /** On the birthday itself the year is already counted. */
  lemma BirthdayCounts(nascimento: Data, n: int)
    ensures NaoDepois(Aniversario(nascimento, n), Aniversario(nascimento, n))
    ensures !NaoDepois(Aniversario(nascimento, n + 1), Aniversario(nascimento, n))
  {
  }
}

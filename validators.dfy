/**
 * `validators`: the CPF check-digit rule, the digit counts of phone numbers
 * and CEPs, and the opening-hours window.
 */
module Validators {
  import opened Common
  import opened Domain
  import opened Formatters

  // ---------------------------------------------------------------------------
  // CPF
  // ---------------------------------------------------------------------------

  /** `Σ d[i] * (pesoInicial - i)` over the digits of `d`. */
  function SomaPonderada(d: string, pesoInicial: int): int
    requires AllDigits(d)
  {
    if d == [] then 0
    else SomaPonderada(d[..|d| - 1], pesoInicial) + DigitValue(d[|d| - 1]) * (pesoInicial - (|d| - 1))
  }

  /** `(soma * 10) % 11`, with 10 (and the unreachable 11) mapped to 0. */
  function DigitoVerificador(d: string, pesoInicial: int): (r: nat)
    requires AllDigits(d)
    ensures r < 10
  {
    var resto := (SomaPonderada(d, pesoInicial) * 10) % 11;
    if resto == 10 || resto == 11 then 0 else resto
  }

  /** `/^(\d)\1{10}$/`: every digit equals the first. */
  predicate TodosIguais(c: string) {
    forall k :: 0 <= k < |c| ==> c[k] == c[0]
  }

  /** The rule applied to the digits of a CPF. */
  predicate DigitosCpfValidos(c: string)
    requires AllDigits(c)
  {
    && |c| == 11
    && !TodosIguais(c)
    && DigitoVerificador(c[..9], 10) == DigitValue(c[9])
    && DigitoVerificador(c[..10], 11) == DigitValue(c[10])
  }

  /** `validators.cpf(cpf)`. */
  predicate CpfValido(cpf: string) {
    cpf != "" && DigitosCpfValidos(OnlyDigits(cpf))
  }

  /** `validators.cpf`, with the two accumulation loops of the source. */
  method ValidarCpf(entrada: string) returns (ok: bool)
    ensures ok == CpfValido(entrada)
  {
    if entrada == "" {
      return false;
    }
    var cpf := OnlyDigits(entrada);
    if |cpf| != 11 {
      return false;
    }
    if TodosIguais(cpf) {
      return false;
    }
    var soma := 0;
    for i := 0 to 9
      invariant soma == SomaPonderada(cpf[..i], 10)
    {
      assert cpf[..i + 1][..i] == cpf[..i];
      soma := soma + DigitValue(cpf[i]) * (10 - i);
    }
    var resto := (soma * 10) % 11;
    if resto == 10 || resto == 11 {
      resto := 0;
    }
    if resto != DigitValue(cpf[9]) {
      return false;
    }
    soma := 0;
    for i := 0 to 10
      invariant soma == SomaPonderada(cpf[..i], 11)
    {
      assert cpf[..i + 1][..i] == cpf[..i];
      soma := soma + DigitValue(cpf[i]) * (11 - i);
    }
    resto := (soma * 10) % 11;
    if resto == 10 || resto == 11 {
      resto := 0;
    }
    if resto != DigitValue(cpf[10]) {
      return false;
    }
    return true;
  }

  /** Two inputs with the same digits are both valid or both invalid: punctuation is irrelevant. */
  lemma CpfDependsOnlyOnDigits(s: string, t: string)
    requires OnlyDigits(s) == OnlyDigits(t)
    ensures CpfValido(s) == CpfValido(t)
  {
    if s == [] || t == [] {
      assert OnlyDigits(s) == [] && OnlyDigits(t) == [];
    }
  }

  /** Inserting characters that are not digits anywhere does not change the verdict. */
  lemma CpfIgnoresPunctuation(a: string, p: string, b: string)
    requires NoDigits(p)
    ensures CpfValido(a + p + b) == CpfValido(a + b)
  {
    OnlyDigitsAppend(a + p, b);
    OnlyDigitsAppend(a, p);
    OnlyDigitsAppend(a, b);
    OnlyDigitsOfNonDigits(p);
    CpfDependsOnlyOnDigits(a + p + b, a + b);
  }

  /** The mask preserves the verdict for any input of at most eleven digits. */
  lemma FormatCpfKeepsVerdict(value: string)
    requires |OnlyDigits(value)| <= DigitosCpf
    ensures CpfValido(FormatCpf(value)) == CpfValido(value)
  {
    FormatCpfKeepsDigits(value);
    CpfDependsOnlyOnDigits(FormatCpf(value), value);
  }

  /** Eleven copies of one digit are rejected even though they satisfy the check digits. */
  lemma RepeatedDigitsRejected(c: string)
    requires |c| == 11 && AllDigits(c) && TodosIguais(c)
    ensures !CpfValido(c)
  {
    OnlyDigitsOfDigits(c);
  }

  /** The two check digits that complete nine base digits. */
  function CompletarCpf(base: string): (c: string)
    requires |base| == 9 && AllDigits(base)
    ensures |c| == 11 && AllDigits(c) && c[..9] == base
  {
    var dv1 := DigitChar(DigitoVerificador(base, 10));
    var dv2 := DigitChar(DigitoVerificador(base + [dv1], 11));
    base + [dv1] + [dv2]
  }

  /**
   * A CPF is valid exactly when its digits are eleven, not all equal, and the
   * completion of their first nine.
   */
  lemma CpfValidoIffCompletion(s: string)
    ensures CpfValido(s) <==>
      var c := OnlyDigits(s);
      |c| == 11 && !TodosIguais(c) && c == CompletarCpf(c[..9])
  {
    var c := OnlyDigits(s);
    if |c| == 11 {
      var cc := CompletarCpf(c[..9]);
      assert cc[..10] == c[..9] + [cc[9]];
      assert c[..10] == c[..9] + [c[9]];
      if c == cc {
        assert DigitValue(c[9]) == DigitoVerificador(c[..9], 10);
        assert DigitValue(c[10]) == DigitoVerificador(c[..10], 11);
      }
      if CpfValido(s) {
        assert DigitChar(DigitValue(c[9])) == c[9];
        assert c[..10] == c[..9] + [cc[9]];
        assert DigitChar(DigitValue(c[10])) == c[10];
        assert c == c[..9] + [c[9]] + [c[10]];
      }
    }
  }

  /** `52998224725` carries the right check digits. */
  lemma CpfExampleValid()
    ensures DigitosCpfValidos("52998224725")
  {
    var c := "52998224725";
    assert c[..9] == "529982247" && c[..10] == "5299822472";
    assert SomaPonderada("5", 10) == 50;
    assert "52"[..1] == "5";
    assert SomaPonderada("52", 10) == 68;
    assert "529"[..2] == "52";
    assert SomaPonderada("529", 10) == 140;
    assert "5299"[..3] == "529";
    assert SomaPonderada("5299", 10) == 203;
    assert "52998"[..4] == "5299";
    assert SomaPonderada("52998", 10) == 251;
    assert "529982"[..5] == "52998";
    assert SomaPonderada("529982", 10) == 261;
    assert "5299822"[..6] == "529982";
    assert SomaPonderada("5299822", 10) == 269;
    assert "52998224"[..7] == "5299822";
    assert SomaPonderada("52998224", 10) == 281;
    assert "529982247"[..8] == "52998224";
    assert SomaPonderada("529982247", 10) == 295;
    assert SomaPonderada("5", 11) == 55;
    assert "52"[..1] == "5";
    assert SomaPonderada("52", 11) == 75;
    assert "529"[..2] == "52";
    assert SomaPonderada("529", 11) == 156;
    assert "5299"[..3] == "529";
    assert SomaPonderada("5299", 11) == 228;
    assert "52998"[..4] == "5299";
    assert SomaPonderada("52998", 11) == 284;
    assert "529982"[..5] == "52998";
    assert SomaPonderada("529982", 11) == 296;
    assert "5299822"[..6] == "529982";
    assert SomaPonderada("5299822", 11) == 306;
    assert "52998224"[..7] == "5299822";
    assert SomaPonderada("52998224", 11) == 322;
    assert "529982247"[..8] == "52998224";
    assert SomaPonderada("529982247", 11) == 343;
    assert "5299822472"[..9] == "529982247";
    assert SomaPonderada("5299822472", 11) == 347;
    assert !TodosIguais(c) by {
      assert c[1] != c[0];
    }
  }

  /** Changing its last digit makes it invalid. */
  lemma CpfExampleInvalid()
    ensures !DigitosCpfValidos("52998224724")
  {
    var c := "52998224724";
    assert c[..10] == "5299822472";
    assert SomaPonderada("5", 11) == 55;
    assert "52"[..1] == "5";
    assert SomaPonderada("52", 11) == 75;
    assert "529"[..2] == "52";
    assert SomaPonderada("529", 11) == 156;
    assert "5299"[..3] == "529";
    assert SomaPonderada("5299", 11) == 228;
    assert "52998"[..4] == "5299";
    assert SomaPonderada("52998", 11) == 284;
    assert "529982"[..5] == "52998";
    assert SomaPonderada("529982", 11) == 296;
    assert "5299822"[..6] == "529982";
    assert SomaPonderada("5299822", 11) == 306;
    assert "52998224"[..7] == "5299822";
    assert SomaPonderada("52998224", 11) == 322;
    assert "529982247"[..8] == "52998224";
    assert SomaPonderada("529982247", 11) == 343;
    assert "5299822472"[..9] == "529982247";
    assert SomaPonderada("5299822472", 11) == 347;
  }

  // ---------------------------------------------------------------------------
  // Phone, CEP
  // ---------------------------------------------------------------------------

  /** `validators.phone`: 10 or 11 digits once the rest is stripped. */
  predicate PhoneValido(phone: string) {
    var d := OnlyDigits(phone);
    10 <= |d| <= 11
  }

  /** `validators.cep`: exactly 8 digits once the rest is stripped. */
  predicate CepValido(cep: string) {
    |OnlyDigits(cep)| == 8
  }

  /** A masked phone number is valid exactly when at least ten digits were typed. */
  lemma FormatPhoneValid(value: string)
    ensures PhoneValido(FormatPhone(value)) <==> |OnlyDigits(value)| >= 10
  {
    FormatPhoneKeepsDigits(value);
  }

  /** A masked CEP is valid exactly when at least eight digits were typed. */
  lemma FormatCepValid(value: string)
    ensures CepValido(FormatCep(value)) <==> |OnlyDigits(value)| >= 8
  {
    FormatCepKeepsDigits(value);
  }

  /** Separators never change whether a phone number or CEP is valid. */
  lemma PhoneCepIgnorePunctuation(a: string, p: string, b: string)
    requires NoDigits(p)
    ensures PhoneValido(a + p + b) == PhoneValido(a + b)
    ensures CepValido(a + p + b) == CepValido(a + b)
  {
    OnlyDigitsAppend(a + p, b);
    OnlyDigitsAppend(a, p);
    OnlyDigitsAppend(a, b);
    OnlyDigitsOfNonDigits(p);
  }

  // ---------------------------------------------------------------------------
  // Opening hours
  // ---------------------------------------------------------------------------

  /** `obj.campo` read as a non-empty string; anything else is falsy or not text. */
  function CampoTexto(v: Valor, campo: string): Option<string> {
    if v.Objeto? && campo in v.campos && v.campos[campo].Texto? && v.campos[campo].s != "" then
      Some(v.campos[campo].s)
    else None
  }

  /**
   * `validators.businessHours(time, config)` on weekday `diaSemana` (the
   * source reads today's weekday from the clock), where `horario` is
   * `config.horarioFuncionamento`.
   */
  function BusinessHours(time: string, horario: map<string, Valor>, diaSemana: int): (r: bool)
    requires 0 <= diaSemana < 7
  {
    var nome := Dias[diaSemana];
    if nome !in horario then false
    else
      var inicio, fim := CampoTexto(horario[nome], "inicio"), CampoTexto(horario[nome], "fim");
      if inicio.None? || fim.None? then false
      else
        match (ParseHorario(time), ParseHorario(inicio.value), ParseHorario(fim.value))
        case (Some(t), Some(a), Some(b)) => a <= t <= b
        case _ => false
  }

  /** A day with no entry, or with a blank opening or closing time, is closed at every time. */
  lemma ClosedDay(time: string, horario: map<string, Valor>, diaSemana: int)
    requires 0 <= diaSemana < 7
    requires Dias[diaSemana] !in horario
          || CampoTexto(horario[Dias[diaSemana]], "inicio").None?
          || CampoTexto(horario[Dias[diaSemana]], "fim").None?
    ensures !BusinessHours(time, horario, diaSemana)
  {
  }

  /**
   * For times typed as "HH:MM", a day configured as `inicio`-`fim` is open
   * exactly from the opening minute to the closing minute, both included,
   * whatever the other days of the week hold.
   */
  lemma BusinessHoursWindow(h: nat, m: nat, hi: nat, mi: nat, hf: nat, mf: nat,
                            horario: map<string, Valor>, diaSemana: int)
    requires h < 24 && m < 60 && hi < 24 && mi < 60 && hf < 24 && mf < 60
    requires 0 <= diaSemana < 7
    requires Dias[diaSemana] in horario
    requires CampoTexto(horario[Dias[diaSemana]], "inicio") == Some(FormatHorario(hi, mi))
    requires CampoTexto(horario[Dias[diaSemana]], "fim") == Some(FormatHorario(hf, mf))
    ensures BusinessHours(FormatHorario(h, m), horario, diaSemana) <==>
      hi * 60 + mi <= h * 60 + m <= hf * 60 + mf
  {
    ParseFormatHorario(h, m);
    ParseFormatHorario(hi, mi);
    ParseFormatHorario(hf, mf);
    assert FormatHorario(hi, mi) != "" && FormatHorario(hf, mf) != "";
  }
}

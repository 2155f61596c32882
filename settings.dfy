/**
 * The settings screen (`Configuracoes.updateConfig`) and the patient form
 * (`handleInputChange`): copy-on-write updates of nested settings objects
 * built by object spread.
 *
 * A dotted field is split on '.', and only its first two segments are used.
 * The settings screen passes three-segment paths for the opening hours
 * (`horarioFuncionamento.<dia>.inicio`), so the update replaces the whole day
 * object by the typed string (`AsWrittenReplacesDay`). `UpdateConfig` follows
 * the whole path instead.
 */
module Settings {
  import opened Common
  import opened Domain
  import Validators

  /** `obj[k]`: a property of an object; properties of other values are not modelled. */
  function Lookup(m: map<string, Valor>, k: string): Option<Valor> {
    if k in m then Some(m[k]) else None
  }

  /** `{ ...v }`: the properties of an object; `undefined`, numbers and booleans spread to nothing. */
  function Espalhar(v: Option<Valor>): map<string, Valor> {
    if v.Some? && v.value.Objeto? then v.value.campos else map[]
  }

  /** Reading `m[p0][p1]...`; a step through anything but an object yields `undefined`. */
  function GetPath(m: map<string, Valor>, path: seq<string>): Option<Valor>
    requires |path| >= 1
    decreases |path|
  {
    if |path| == 1 then Lookup(m, path[0])
    else
      match Lookup(m, path[0])
      case Some(Objeto(n)) => GetPath(n, path[1..])
      case _ => None
  }

  /** `{ ...m, [p0]: { ...m[p0], [p1]: ... value } }`: the nested spread along `path`. */
  function SetPath(m: map<string, Valor>, path: seq<string>, valor: Valor): map<string, Valor>
    requires |path| >= 1
    decreases |path|
  {
    if |path| == 1 then m[path[0] := valor]
    else m[path[0] := Objeto(SetPath(Espalhar(Lookup(m, path[0])), path[1..], valor))]
  }

  /** Reading back the path just written gives the value written. */
  lemma {:induction false} GetSetPath(m: map<string, Valor>, path: seq<string>, valor: Valor)
    requires |path| >= 1
    ensures GetPath(SetPath(m, path, valor), path) == Some(valor)
    decreases |path|
  {
    if |path| > 1 {
      GetSetPath(Espalhar(Lookup(m, path[0])), path[1..], valor);
    }
  }

  /**
   * Every other path is untouched: a path that leaves `path` at some segment
   * reads the same before and after the update.
   */
  lemma {:induction false} SetPathKeepsOthers(m: map<string, Valor>, path: seq<string>, valor: Valor,
                                               outro: seq<string>, i: nat)
    requires i < |path| && i < |outro|
    requires outro[..i] == path[..i] && outro[i] != path[i]
    ensures GetPath(SetPath(m, path, valor), outro) == GetPath(m, outro)
    decreases i
  {
    if i > 0 {
      assert outro[0] == path[0] by {
        assert outro[..i][0] == path[..i][0];
      }
      var n := Espalhar(Lookup(m, path[0]));
      assert outro[1..][..i - 1] == path[1..][..i - 1];
      SetPathKeepsOthers(n, path[1..], valor, outro[1..], i - 1);
      if |path| == 1 {
        assert false;
      }
    }
  }

  /** The segments of the field used by the code: at most the first two. */
  function CaminhoAsWritten(campo: string): (c: seq<string>)
    ensures 1 <= |c| <= 2
  {
    Take(Split(campo, '.'), 2)
  }

  /** The whole dotted path. */
  function Caminho(campo: string): (c: seq<string>)
    ensures |c| >= 1
  {
    Split(campo, '.')
  }

  /**
   * `updateConfig(section, field, value)` as written. A dotted field reads
   * `prev[section][parent]`, which throws when the section is missing.
   */
  function UpdateConfigAsWritten(configs: map<string, Valor>, secao: string, campo: string, valor: Valor)
    : Result<map<string, Valor>, Erro>
  {
    if '.' in campo && secao !in configs then Err(SecaoInexistente)
    else Ok(configs[secao := Objeto(SetPath(Espalhar(Lookup(configs, secao)), CaminhoAsWritten(campo), valor))])
  }

  /** `updateConfig` following every segment of the dotted field. */
  function UpdateConfig(configs: map<string, Valor>, secao: string, campo: string, valor: Valor)
    : Result<map<string, Valor>, Erro>
  {
    if '.' in campo && secao !in configs then Err(SecaoInexistente)
    else Ok(configs[secao := Objeto(SetPath(Espalhar(Lookup(configs, secao)), Caminho(campo), valor))])
  }

  /** `handleInputChange(field, value)` of the patient form: the same two-segment update on the form object. */
  function HandleInputChange(form: map<string, Valor>, campo: string, valor: Valor): map<string, Valor> {
    SetPath(form, CaminhoAsWritten(campo), valor)
  }

  /** A field with a '.' splits into at least two segments. */
  lemma {:induction false} SplitAtSeparator(s: string, sep: char)
    requires sep in s
    ensures |Split(s, sep)| >= 2
  {
    if s[0] != sep {
      SplitAtSeparator(s[1..], sep);
    }
  }

  /** `updateConfig` fails only for a dotted field of a missing section. */
  lemma UpdateConfigFails(configs: map<string, Valor>, secao: string, campo: string, valor: Valor)
    ensures UpdateConfig(configs, secao, campo, valor).Err? <==> '.' in campo && secao !in configs
    ensures UpdateConfigAsWritten(configs, secao, campo, valor).Err? <==> '.' in campo && secao !in configs
  {
  }

  /**
   * After `updateConfig` the field holds the value, and every other section,
   * and every other field of every section, is unchanged.
   */
  lemma UpdateConfigFrame(configs: map<string, Valor>, secao: string, campo: string, valor: Valor)
    requires UpdateConfig(configs, secao, campo, valor).Ok?
    ensures var r := UpdateConfig(configs, secao, campo, valor).value;
      && r.Keys == configs.Keys + {secao}
      && (forall s :: s in configs && s != secao ==> r[s] == configs[s])
      && r[secao].Objeto?
      && GetPath(r[secao].campos, Caminho(campo)) == Some(valor)
      && (forall outro: seq<string>, i: nat ::
            i < |Caminho(campo)| && i < |outro| && outro[..i] == Caminho(campo)[..i] && outro[i] != Caminho(campo)[i]
            ==> GetPath(r[secao].campos, outro) == GetPath(Espalhar(Lookup(configs, secao)), outro))
  {
    var m := Espalhar(Lookup(configs, secao));
    GetSetPath(m, Caminho(campo), valor);
    forall outro: seq<string>, i: nat |
      i < |Caminho(campo)| && i < |outro| && outro[..i] == Caminho(campo)[..i] && outro[i] != Caminho(campo)[i]
      ensures GetPath(SetPath(m, Caminho(campo), valor), outro) == GetPath(m, outro)
    {
      SetPathKeepsOthers(m, Caminho(campo), valor, outro, i);
    }
  }

  /** Reading `p + q` is reading `p`, then reading `q` inside the object found there. */
  lemma {:induction false} GetPathExtend(m: map<string, Valor>, p: seq<string>, q: seq<string>)
    requires |p| >= 1 && |q| >= 1
    ensures GetPath(m, p + q) == match GetPath(m, p)
                                 case Some(Objeto(n)) => GetPath(n, q)
                                 case _ => None
    decreases |p|
  {
    assert (p + q)[0] == p[0];
    if |p| > 1 {
      assert (p + q)[1..] == p[1..] + q;
      match Lookup(m, p[0])
      case Some(Objeto(n)) => GetPathExtend(n, p[1..], q);
      case _ =>
    }
  }

  /**
   * `updateConfig` as written changes only the named section. Inside it the
   * field's first two segments hold the value and every path that diverges
   * from them reads as before; a field of three or more segments therefore
   * reads the rest of its path inside the value itself, which for a text or
   * a number is `undefined`.
   */
  lemma UpdateConfigAsWrittenFrame(configs: map<string, Valor>, secao: string, campo: string, valor: Valor)
    requires UpdateConfigAsWritten(configs, secao, campo, valor).Ok?
    ensures var r, c := UpdateConfigAsWritten(configs, secao, campo, valor).value, CaminhoAsWritten(campo);
      && r.Keys == configs.Keys + {secao}
      && (forall s :: s in configs && s != secao ==> r[s] == configs[s])
      && r[secao].Objeto?
      && GetPath(r[secao].campos, c) == Some(valor)
      && (forall outro: seq<string>, i: nat ::
            i < |c| && i < |outro| && outro[..i] == c[..i] && outro[i] != c[i]
            ==> GetPath(r[secao].campos, outro) == GetPath(Espalhar(Lookup(configs, secao)), outro))
      && (|Caminho(campo)| >= 3 ==>
            GetPath(r[secao].campos, Caminho(campo))
              == (if valor.Objeto? then GetPath(valor.campos, Caminho(campo)[2..]) else None))
  {
    var m := Espalhar(Lookup(configs, secao));
    var c := CaminhoAsWritten(campo);
    GetSetPath(m, c, valor);
    forall outro: seq<string>, i: nat | i < |c| && i < |outro| && outro[..i] == c[..i] && outro[i] != c[i]
      ensures GetPath(SetPath(m, c, valor), outro) == GetPath(m, outro)
    {
      SetPathKeepsOthers(m, c, valor, outro, i);
    }
    var full := Caminho(campo);
    if |full| >= 3 {
      assert c == full[..2];
      assert full == c + full[2..];
      GetPathExtend(SetPath(m, c, valor), c, full[2..]);
    }
  }

  /**
   * `handleInputChange` writes the value under the field's first two
   * segments (the whole field when it has at most one '.'), keeps every
   * path that diverges from those, and never fails: a missing parent object
   * spreads to `{}`, so the update creates `{ [child]: value }`.
   */
  lemma HandleInputChangeFrame(form: map<string, Valor>, campo: string, valor: Valor)
    ensures var r, c := HandleInputChange(form, campo, valor), CaminhoAsWritten(campo);
      && GetPath(r, c) == Some(valor)
      && (|Split(campo, '.')| <= 2 ==> GetPath(r, Split(campo, '.')) == Some(valor))
      && r.Keys == form.Keys + {c[0]}
      && (forall outro: seq<string>, i: nat ::
            i < |c| && i < |outro| && outro[..i] == c[..i] && outro[i] != c[i]
            ==> GetPath(r, outro) == GetPath(form, outro))
      && (|c| == 2 && c[0] !in form ==> r[c[0]] == Objeto(map[c[1] := valor]))
  {
    var c := CaminhoAsWritten(campo);
    GetSetPath(form, c, valor);
    forall outro: seq<string>, i: nat | i < |c| && i < |outro| && outro[..i] == c[..i] && outro[i] != c[i]
      ensures GetPath(SetPath(form, c, valor), outro) == GetPath(form, outro)
    {
      SetPathKeepsOthers(form, c, valor, outro, i);
    }
  }

  /** With at most one '.', the code as written and the full-path update agree. */
  lemma AsWrittenAgreesUpToTwoSegments(configs: map<string, Valor>, secao: string, campo: string, valor: Valor)
    requires |Split(campo, '.')| <= 2
    ensures UpdateConfigAsWritten(configs, secao, campo, valor) == UpdateConfig(configs, secao, campo, valor)
  {
  }

  /** `horarioFuncionamento.<dia>.inicio`, the field the opening-hours inputs pass. */
  function CampoHorario(dia: string, extremo: string): string {
    "horarioFuncionamento" + "." + dia + "." + extremo
  }

  lemma CaminhoHorario(dia: string, extremo: string)
    requires '.' !in dia && '.' !in extremo
    ensures Split(CampoHorario(dia, extremo), '.') == ["horarioFuncionamento", dia, extremo]
  {
    var h := "horarioFuncionamento";
    assert '.' !in h;
    assert CampoHorario(dia, extremo) == h + ['.'] + (dia + ['.'] + extremo);
    SplitPrefix(h, '.', dia + ['.'] + extremo);
    SplitPrefix(dia, '.', extremo);
    SplitNoSeparator(extremo, '.');
  }

  /**
   * As written, editing a day's opening time replaces that day's object by
   * the typed text: the closing time is lost, and the opening-hours check
   * then reports the day as closed at every time.
   */
  lemma AsWrittenReplacesDay(configs: map<string, Valor>, diaSemana: int, texto: string, time: string)
    requires 0 <= diaSemana < 7 && "geral" in configs
    ensures var r := UpdateConfigAsWritten(configs, "geral", CampoHorario(Dias[diaSemana], "inicio"), Texto(texto));
      && r.Ok?
      && r.value["geral"].Objeto?
      && GetPath(r.value["geral"].campos, ["horarioFuncionamento", Dias[diaSemana]]) == Some(Texto(texto))
      && GetPath(r.value["geral"].campos, ["horarioFuncionamento", Dias[diaSemana], "fim"]) == None
      && (forall h :: Lookup(r.value["geral"].campos, "horarioFuncionamento") == Some(Objeto(h)) ==>
            !Validators.BusinessHours(time, h, diaSemana))
  {
    var dia := Dias[diaSemana];
    assert '.' !in dia;
    CaminhoHorario(dia, "inicio");
    var m := Espalhar(Lookup(configs, "geral"));
    var p := ["horarioFuncionamento", dia];
    assert CaminhoAsWritten(CampoHorario(dia, "inicio")) == p;
    assert '.' in CampoHorario(dia, "inicio") by {
      assert CampoHorario(dia, "inicio")[20] == '.';
    }
    GetSetPath(m, p, Texto(texto));
  }

  /**
   * The full-path update sets only the opening time: the closing time
   * survives, and the day is open from the new time on.
   */
  lemma UpdateConfigSetsOpeningTime(configs: map<string, Valor>, diaSemana: int, hi: nat, mi: nat, hf: nat, mf: nat)
    requires 0 <= diaSemana < 7 && hi < 24 && mi < 60 && hf < 24 && mf < 60
    requires "geral" in configs && configs["geral"].Objeto?
    requires var g := configs["geral"].campos;
      GetPath(g, ["horarioFuncionamento", Dias[diaSemana], "fim"]) == Some(Texto(FormatHorario(hf, mf)))
    ensures var r := UpdateConfig(configs, "geral", CampoHorario(Dias[diaSemana], "inicio"), Texto(FormatHorario(hi, mi)));
      && r.Ok?
      && r.value["geral"].Objeto?
      && GetPath(r.value["geral"].campos, ["horarioFuncionamento", Dias[diaSemana], "inicio"])
           == Some(Texto(FormatHorario(hi, mi)))
      && GetPath(r.value["geral"].campos, ["horarioFuncionamento", Dias[diaSemana], "fim"])
           == Some(Texto(FormatHorario(hf, mf)))
  {
    var dia := Dias[diaSemana];
    assert '.' !in dia;
    CaminhoHorario(dia, "inicio");
    var m := configs["geral"].campos;
    var p := ["horarioFuncionamento", dia, "inicio"];
    var q := ["horarioFuncionamento", dia, "fim"];
    assert '.' in CampoHorario(dia, "inicio") by {
      assert CampoHorario(dia, "inicio")[20] == '.';
    }
    GetSetPath(m, p, Texto(FormatHorario(hi, mi)));
    assert q[..2] == p[..2];
    SetPathKeepsOthers(m, p, Texto(FormatHorario(hi, mi)), q, 2);
  }
}

/**
 * The input masks `formatters.cpf`, `formatters.phone` and `formatters.cep`
 * (and the identical `formatCPF`, `formatPhone` and `formatCEP` of the
 * patient form), described by their effect: strip every non-digit, keep at
 * most the first 11 (CPF, phone) or 8 (CEP) digits, and insert the
 * separators of the groups that are present.
 */
module Formatters {
  import opened Common

  const DigitosCpf: nat := 11
  const DigitosTelefone: nat := 11
  const DigitosCep: nat := 8

  /** `ddd.ddd.ddd-dd`, with only the separators whose following group has begun. */
  function MascaraCpf(d: string): (r: string)
    requires AllDigits(d) && |d| <= DigitosCpf
  {
    if |d| <= 3 then d
    else if |d| <= 6 then d[..3] + "." + d[3..]
    else if |d| <= 9 then d[..3] + "." + d[3..6] + "." + d[6..]
    else d[..3] + "." + d[3..6] + "." + d[6..9] + "-" + d[9..]
  }

  function FormatCpf(value: string): string {
    MascaraCpf(Take(OnlyDigits(value), DigitosCpf))
  }

  /** `(dd) dddd-dddd`, or `(dd) ddddd-dddd` once the eleventh digit is typed. */
  function MascaraTelefone(d: string): (r: string)
    requires AllDigits(d) && |d| <= DigitosTelefone
  {
    if |d| <= 2 then d
    else if |d| <= 6 then "(" + d[..2] + ") " + d[2..]
    else if |d| <= 10 then "(" + d[..2] + ") " + d[2..6] + "-" + d[6..]
    else "(" + d[..2] + ") " + d[2..7] + "-" + d[7..]
  }

  function FormatPhone(value: string): string {
    MascaraTelefone(Take(OnlyDigits(value), DigitosTelefone))
  }

  /** `ddddd-ddd`, with the dash only when a sixth digit is present. */
  function MascaraCep(d: string): (r: string)
    requires AllDigits(d) && |d| <= DigitosCep
  {
    if |d| <= 5 then d else d[..5] + "-" + d[5..]
  }

  function FormatCep(value: string): string {
    MascaraCep(Take(OnlyDigits(value), DigitosCep))
  }

  // ---------------------------------------------------------------------------
  // Properties
  // ---------------------------------------------------------------------------

  lemma TakeDigits(s: string, n: nat)
    requires AllDigits(s)
    ensures AllDigits(Take(s, n))
  {
  }

  predicate NoDigits(sep: string) {
    forall k :: 0 <= k < |sep| ==> !IsDigit(sep[k])
  }

  /** Appending a separator and a group of digits appends that group to the digits. */
  lemma DigitsAfter(a: string, sep: string, b: string)
    requires NoDigits(sep) && AllDigits(b)
    ensures OnlyDigits(a + sep + b) == OnlyDigits(a) + b
  {
    OnlyDigitsAppend(a + sep, b);
    OnlyDigitsAppend(a, sep);
    OnlyDigitsOfNonDigits(sep);
    OnlyDigitsOfDigits(b);
    assert OnlyDigits(a + sep) == OnlyDigits(a);
  }

  /** A separator followed by a group of digits has that group as its digits. */
  lemma DigitsLead(sep: string, b: string)
    requires NoDigits(sep) && AllDigits(b)
    ensures OnlyDigits(sep + b) == b
  {
    OnlyDigitsAppend(sep, b);
    OnlyDigitsOfNonDigits(sep);
    OnlyDigitsOfDigits(b);
  }

  lemma MascaraCpfDigits(d: string)
    requires AllDigits(d) && |d| <= DigitosCpf
    ensures OnlyDigits(MascaraCpf(d)) == d
  {
    if |d| <= 3 {
      OnlyDigitsOfDigits(d);
    } else if |d| <= 6 {
      OnlyDigitsOfDigits(d[..3]);
      DigitsAfter(d[..3], ".", d[3..]);
      assert d[..3] + d[3..] == d;
    } else if |d| <= 9 {
      OnlyDigitsOfDigits(d[..3]);
      DigitsAfter(d[..3], ".", d[3..6]);
      DigitsAfter(d[..3] + "." + d[3..6], ".", d[6..]);
      assert d[..3] + d[3..6] + d[6..] == d;
    } else {
      OnlyDigitsOfDigits(d[..3]);
      DigitsAfter(d[..3], ".", d[3..6]);
      DigitsAfter(d[..3] + "." + d[3..6], ".", d[6..9]);
      DigitsAfter(d[..3] + "." + d[3..6] + "." + d[6..9], "-", d[9..]);
      assert d[..3] + d[3..6] + d[6..9] + d[9..] == d;
    }
  }

  /** The digits of the masked CPF are the first eleven digits of the input, in order. */
  lemma FormatCpfKeepsDigits(value: string)
    ensures OnlyDigits(FormatCpf(value)) == Take(OnlyDigits(value), DigitosCpf)
  {
    MascaraCpfDigits(Take(OnlyDigits(value), DigitosCpf));
  }

  /** With eleven or more digits typed, the mask has the full `ddd.ddd.ddd-dd` shape. */
  lemma FormatCpfShape(value: string)
    requires |OnlyDigits(value)| >= DigitosCpf
    ensures var r := FormatCpf(value);
      |r| == 14 && r[3] == '.' && r[7] == '.' && r[11] == '-'
  {
  }

  /** Masking an already masked CPF changes nothing. */
  lemma FormatCpfIdempotent(value: string)
    ensures FormatCpf(FormatCpf(value)) == FormatCpf(value)
  {
    FormatCpfKeepsDigits(value);
  }

  lemma MascaraTelefoneDigits(d: string)
    requires AllDigits(d) && |d| <= DigitosTelefone
    ensures OnlyDigits(MascaraTelefone(d)) == d
  {
    if |d| <= 2 {
      OnlyDigitsOfDigits(d);
    } else {
      DigitsLead("(", d[..2]);
      if |d| <= 6 {
        DigitsAfter("(" + d[..2], ") ", d[2..]);
        assert d[..2] + d[2..] == d;
      } else {
        var cut := if |d| <= 10 then 6 else 7;
        DigitsAfter("(" + d[..2], ") ", d[2..cut]);
        DigitsAfter("(" + d[..2] + ") " + d[2..cut], "-", d[cut..]);
        assert d[..2] + d[2..cut] + d[cut..] == d;
      }
    }
  }

  /** The digits of the masked phone are the first eleven digits of the input. */
  lemma FormatPhoneKeepsDigits(value: string)
    ensures OnlyDigits(FormatPhone(value)) == Take(OnlyDigits(value), DigitosTelefone)
  {
    MascaraTelefoneDigits(Take(OnlyDigits(value), DigitosTelefone));
  }

  lemma MascaraCepDigits(d: string)
    requires AllDigits(d) && |d| <= DigitosCep
    ensures OnlyDigits(MascaraCep(d)) == d
  {
    if |d| <= 5 {
      OnlyDigitsOfDigits(d);
    } else {
      OnlyDigitsOfDigits(d[..5]);
      DigitsAfter(d[..5], "-", d[5..]);
      assert d[..5] + d[5..] == d;
    }
  }

  /** The digits of the masked CEP are the first eight digits of the input, in order. */
  lemma FormatCepKeepsDigits(value: string)
    ensures OnlyDigits(FormatCep(value)) == Take(OnlyDigits(value), DigitosCep)
  {
    MascaraCepDigits(Take(OnlyDigits(value), DigitosCep));
  }

  /** The dash appears exactly when more than five digits were typed. */
  lemma FormatCepDash(value: string)
    ensures '-' in FormatCep(value) <==> |OnlyDigits(value)| > 5
  {
    var d := Take(OnlyDigits(value), DigitosCep);
    if |d| <= 5 {
      assert forall k :: 0 <= k < |d| ==> IsDigit(d[k]);
    } else {
      assert FormatCep(value)[5] == '-';
    }
  }

  /** Masking an already masked CEP changes nothing. */
  lemma FormatCepIdempotent(value: string)
    ensures FormatCep(FormatCep(value)) == FormatCep(value)
  {
    FormatCepKeepsDigits(value);
  }
}

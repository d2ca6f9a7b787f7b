/**
 * The NF-e access key (chave de acesso, layout 4.00): the state code, the
 * year-month of emission, the issuer CNPJ, model 55, series, number, emission
 * type 1 and the numeric code cNF, followed by a modulo-11 check digit; and the
 * check `consultar` applies to a key before querying the authority.
 */
module AccessKey {
  import opened Wrappers
  import opened JsText
  import opened Invoice

  /** IBGE codes of the 27 federative units. */
  const UfTable: map<string, string> := map[
    "AC" := "12", "AL" := "27", "AP" := "16", "AM" := "13", "BA" := "29", "CE" := "23",
    "DF" := "53", "ES" := "32", "GO" := "52", "MA" := "21", "MT" := "51", "MS" := "50",
    "MG" := "31", "PA" := "15", "PB" := "25", "PR" := "41", "PE" := "26", "PI" := "22",
    "RJ" := "33", "RN" := "24", "RS" := "43", "RO" := "11", "RR" := "14", "SC" := "42",
    "SP" := "35", "SE" := "28", "TO" := "17"
  ]

  /** The code used for a UF outside the table (that of São Paulo). */
  const FallbackUf := "35"

  /** `obterCodigoUF`: the IBGE code of a listed UF, the fallback for any other text. */
  function UfCode(uf: string): (code: string)
    ensures |code| == 2 && AllDigits(code)
    ensures uf in UfTable ==> code == UfTable[uf]
    ensures uf !in UfTable ==> code == FallbackUf
  {
    if uf in UfTable then UfTable[uf] else FallbackUf
  }

  /** `toISOString()` of a date of the years 0000 to 9999 begins with `YYYY-MM`. */
  predicate IsoShaped(iso: string) {
    |iso| >= 7 && AllDigits(iso[..4]) && iso[4] == '-' && AllDigits(iso[5..7])
  }

  /** `toISOString().substring(2, 7).replace('-', '')`: the year-month field `aamm`. */
  function YearMonth(iso: string): (aamm: string)
    ensures IsoShaped(iso) ==> aamm == iso[2..4] + iso[5..7] && AllDigits(aamm)
  {
    var part := Substring(iso, 2, 7);
    if IsoShaped(iso) then
      assert part == [iso[2], iso[3], '-', iso[5], iso[6]];
      assert IsDigit(iso[..4][2]) && IsDigit(iso[..4][3]);
      assert RemoveFirst(part[2..], '-') == part[3..];
      assert RemoveFirst(part[1..], '-') == [part[1]] + part[3..];
      RemoveFirst(part, '-')
    else
      RemoveFirst(part, '-')
  }

  const ModelCode := "55"
  const EmissionType := "1"

  /** The fields before `cNF`: state, year-month, CNPJ, model, series, number and emission type. */
  function KeyHead(dados: Request, iso: string): string {
    UfCode(dados.emitente.endereco.uf) + YearMonth(iso) + dados.emitente.cnpj + ModelCode
    + PadStart(DecimalString(dados.serie), 3) + PadStart(DecimalString(dados.numero), 9)
    + EmissionType
  }

  /** The 43 characters before the check digit (when every field has its width). */
  function KeyPrefix(dados: Request, iso: string, cNF: RandomCode): string {
    KeyHead(dados, iso) + PadStart(DecimalString(cNF), 8)
  }

  /** The weight of the character `k` places from the right end: 2, 3, ..., 9, 2, 3, ... */
  function Weight(k: nat): nat {
    2 + k % 8
  }

  /** The sum of each digit times the weight of its place counted from the right. */
  function WeightedSum(s: string): nat
    requires AllDigits(s)
  {
    if |s| == 0 then 0 else DigitValue(s[0]) * Weight(|s| - 1) + WeightedSum(s[1..])
  }

  /** The modulo-11 digit: 0 for a remainder below 2, else the digit that makes the sum a multiple of 11. */
  function Mod11(sum: nat): (dv: nat)
    ensures dv <= 9
    ensures sum % 11 < 2 ==> dv == 0
    ensures sum % 11 >= 2 ==> (sum + dv) % 11 == 0
  {
    var resto := sum % 11;
    if resto < 2 then 0 else 11 - resto
  }

  /**
   * The text of the check digit. A non-digit character makes `parseInt` give NaN,
   * the sum NaN, and the appended digit the text `NaN`.
   */
  function CheckDigitText(prefix: string): (dv: string)
    ensures AllDigits(prefix) ==> |dv| == 1 && IsDigit(dv[0])
  {
    if AllDigits(prefix) then [DigitChar(Mod11(WeightedSum(prefix)))] else "NaN"
  }

  /** The key `gerarChaveAcesso` returns, for the instant `iso` and the numeric code `cNF`. */
  function AccessKeyOf(dados: Request, iso: string, cNF: RandomCode): string {
    var prefix := KeyPrefix(dados, iso, cNF);
    prefix + CheckDigitText(prefix)
  }

  /** A 44-digit key whose last digit is the modulo-11 digit of the other 43. */
  predicate ValidKey(k: string) {
    |k| == 44 && AllDigits(k) && k[43] == DigitChar(Mod11(WeightedSum(k[..43])))
  }

  /**
   * `gerarChaveAcesso`: concatenates the fields, then sums the digits from the last
   * to the first with weights cycling 2..9 and appends the modulo-11 digit.
   * `Math.random` is the parameter `cNF`; the clock is the parameter `agora`.
   */
  method GenerateKey(dados: Request, agora: Instant, cNF: RandomCode) returns (chave: string)
    ensures chave == AccessKeyOf(dados, agora.iso, cNF)
  {
    var cUF := UfCode(dados.emitente.endereco.uf);
    var aamm := YearMonth(agora.iso);
    var serie := PadStart(DecimalString(dados.serie), 3);
    var nnf := PadStart(DecimalString(dados.numero), 9);
    var codigo := PadStart(DecimalString(cNF), 8);
    var prefixo := cUF + aamm + dados.emitente.cnpj + ModelCode + serie + nnf + EmissionType + codigo;
    var dv := CheckDigit(prefixo);
    chave := prefixo + dv;
  }

  /**
   * The check-digit loop of `gerarChaveAcesso`: from the last character to the first,
   * `soma += parseInt(c) * peso` with `peso` cycling 2..9; then the modulo-11 rule.
   */
  method CheckDigit(prefixo: string) returns (dv: string)
    ensures dv == CheckDigitText(prefixo)
  {
    var soma: nat := 0;
    var nan := false;
    var peso: nat := 2;
    var i := |prefixo|;
    while i > 0
      invariant 0 <= i <= |prefixo|
      invariant peso == Weight(|prefixo| - i)
      invariant nan <==> !AllDigits(prefixo[i..])
      invariant !nan ==> soma == WeightedSum(prefixo[i..])
    {
      i := i - 1;
      DigitStep(prefixo, i);
      if IsDigit(prefixo[i]) {
        soma := soma + DigitValue(prefixo[i]) * peso;
      } else {
        nan := true;
      }
      peso := if peso == 9 then 2 else peso + 1;
    }
    assert prefixo[0..] == prefixo;
    if nan {
      dv := "NaN";
    } else {
      var resto := soma % 11;
      dv := [DigitChar(if resto < 2 then 0 else 11 - resto)];
    }
  }

  /** One more character to the left: its digit, weighted by its place, joins the sum. */
  lemma DigitStep(s: string, i: nat)
    requires i < |s|
    ensures AllDigits(s[i..]) <==> IsDigit(s[i]) && AllDigits(s[i + 1..])
    ensures AllDigits(s[i..]) ==> WeightedSum(s[i..]) == DigitValue(s[i]) * Weight(|s| - 1 - i) + WeightedSum(s[i + 1..])
  {
    assert s[i..][1..] == s[i + 1..];
  }

  /** Serie, number and cNF within their widths are padded to exactly 3, 9 and 8 digits. */
  lemma PaddedWidths(serie: nat, numero: nat, cNF: RandomCode)
    requires serie < 1000 && numero < 1000000000
    ensures |PadStart(DecimalString(serie), 3)| == 3
    ensures |PadStart(DecimalString(numero), 9)| == 9
    ensures |PadStart(DecimalString(cNF), 8)| == 8
  {
    DecimalStringWidth(serie, 3);
    DecimalStringWidth(numero, 9);
    DecimalStringWidth(cNF, 8);
  }

  /** With fields of their nominal widths the fields before `cNF` take 35 characters. */
  lemma KeyHeadLayout(dados: Request, iso: string)
    requires |dados.emitente.cnpj| == 14 && IsoShaped(iso)
    requires dados.serie < 1000 && dados.numero < 1000000000
    ensures |YearMonth(iso)| == 4
    ensures |KeyHead(dados, iso)| == 35
  {
    var uf, ym := UfCode(dados.emitente.endereco.uf), YearMonth(iso);
    var serie, nnf := PadStart(DecimalString(dados.serie), 3), PadStart(DecimalString(dados.numero), 9);
    assert |serie| == 3 by { DecimalStringWidth(dados.serie, 3); }
    assert |nnf| == 9 by { DecimalStringWidth(dados.numero, 9); }
    assert |ym| == 4 by { YearMonthField(iso); }
    assert |uf| == 2;
    ConcatLength(uf, ym, dados.emitente.cnpj, ModelCode, serie, nnf, EmissionType);
  }

  lemma YearMonthField(iso: string)
    requires IsoShaped(iso)
    ensures |YearMonth(iso)| == 4 && AllDigits(YearMonth(iso))
  {
  }

  lemma ConcatLength(a: string, b: string, c: string, d: string, e: string, f: string, g: string)
    ensures |a + b + c + d + e + f + g| == |a| + |b| + |c| + |d| + |e| + |f| + |g|
  {
  }

  /** With fields of their nominal widths the prefix has 43 characters and ends with the padded cNF. */
  lemma KeyPrefixLayout(dados: Request, iso: string, cNF: RandomCode)
    requires |dados.emitente.cnpj| == 14 && IsoShaped(iso)
    requires dados.serie < 1000 && dados.numero < 1000000000
    ensures |YearMonth(iso)| == 4
    ensures var p := KeyPrefix(dados, iso, cNF);
      |p| == 43 && p[35..] == PadStart(DecimalString(cNF), 8)
  {
    var head, codigo := KeyHead(dados, iso), PadStart(DecimalString(cNF), 8);
    assert |head| == 35 && |YearMonth(iso)| == 4 by { KeyHeadLayout(dados, iso); }
    assert |codigo| == 8 by { DecimalStringWidth(cNF, 8); }
    DropHead(head, codigo);
  }

  lemma DropHead(head: string, tail: string)
    ensures (head + tail)[|head|..] == tail
  {
  }

  /** With a 14-digit CNPJ the fields before `cNF` are all digits. */
  lemma KeyHeadDigits(dados: Request, iso: string)
    requires AllDigits(dados.emitente.cnpj) && IsoShaped(iso)
    ensures AllDigits(KeyHead(dados, iso))
  {
    var serie := PadStart(DecimalString(dados.serie), 3);
    var nnf := PadStart(DecimalString(dados.numero), 9);
    assert AllDigits(serie) by { PadStartValue(DecimalString(dados.serie), 3); }
    assert AllDigits(nnf) by { PadStartValue(DecimalString(dados.numero), 9); }
    assert AllDigits(ModelCode) && AllDigits(EmissionType);
    ConcatDigits(UfCode(dados.emitente.endereco.uf), YearMonth(iso), dados.emitente.cnpj, ModelCode, serie, nnf, EmissionType);
  }

  lemma ConcatDigits(a: string, b: string, c: string, d: string, e: string, f: string, g: string)
    requires AllDigits(a) && AllDigits(b) && AllDigits(c) && AllDigits(d)
    requires AllDigits(e) && AllDigits(f) && AllDigits(g)
    ensures AllDigits(a + b + c + d + e + f + g)
  {
    AllDigitsAppend(a, b);
    AllDigitsAppend(a + b, c);
    AllDigitsAppend(a + b + c, d);
    AllDigitsAppend(a + b + c + d, e);
    AllDigitsAppend(a + b + c + d + e, f);
    AllDigitsAppend(a + b + c + d + e + f, g);
  }

  /** The series, the number and cNF can be read back from their zero-padded fields. */
  lemma KeyPrefixFields(dados: Request, iso: string, cNF: RandomCode)
    requires |dados.emitente.cnpj| == 14 && IsoShaped(iso)
    requires dados.serie < 1000 && dados.numero < 1000000000
    ensures var serie := PadStart(DecimalString(dados.serie), 3);
      AllDigits(serie) && DigitsValue(serie) == dados.serie
    ensures var nnf := PadStart(DecimalString(dados.numero), 9);
      AllDigits(nnf) && DigitsValue(nnf) == dados.numero
    ensures var p := KeyPrefix(dados, iso, cNF);
      |p| == 43 && AllDigits(p[35..]) && DigitsValue(p[35..]) == cNF
  {
    KeyPrefixLayout(dados, iso, cNF);
    PadStartValue(DecimalString(dados.serie), 3);
    DecimalStringValue(dados.serie);
    PadStartValue(DecimalString(dados.numero), 9);
    DecimalStringValue(dados.numero);
    PadStartValue(DecimalString(cNF), 8);
    DecimalStringValue(cNF);
  }

  /** `padStart` never truncates: a series of four or more digits lengthens the key. */
  lemma WideSerieLengthensKey(dados: Request, iso: string, cNF: RandomCode)
    requires |dados.emitente.cnpj| == 14 && IsoShaped(iso)
    requires dados.numero < 1000000000
    requires dados.serie >= 1000
    ensures |KeyPrefix(dados, iso, cNF)| == 40 + |DecimalString(dados.serie)| > 43
    ensures |AccessKeyOf(dados, iso, cNF)| > 44
  {
    var serie := DecimalString(dados.serie);
    assert |PadStart(serie, 3)| == |serie| > 3 by { DecimalStringWidth(dados.serie, 3); }
    assert |PadStart(DecimalString(dados.numero), 9)| == 9 by { DecimalStringWidth(dados.numero, 9); }
    assert |PadStart(DecimalString(cNF), 8)| == 8 by { DecimalStringWidth(cNF, 8); }
    var uf, ym := UfCode(dados.emitente.endereco.uf), YearMonth(iso);
    assert |ym| == 4 by { YearMonthField(iso); }
    assert |uf| == 2;
    ConcatLength(uf, ym, dados.emitente.cnpj, ModelCode, PadStart(serie, 3), PadStart(DecimalString(dados.numero), 9), EmissionType);
    assert |KeyHead(dados, iso)| == 32 + |serie|;
  }

  /** The key starts with the UF code and holds the zero-padded `cNF` at characters 35 to 42. */
  lemma KeyFields(dados: Request, iso: string, cNF: RandomCode)
    requires |dados.emitente.cnpj| == 14 && AllDigits(dados.emitente.cnpj) && IsoShaped(iso)
    requires dados.serie < 1000 && dados.numero < 1000000000
    ensures var k := AccessKeyOf(dados, iso, cNF);
      && |k| == 44
      && k[..2] == UfCode(dados.emitente.endereco.uf)
      && k[35..43] == PadStart(DecimalString(cNF), 8)
  {
    KeyRandomCodeField(dados, iso, cNF);
    KeyUfField(dados, iso, cNF);
  }

  lemma KeyRandomCodeField(dados: Request, iso: string, cNF: RandomCode)
    requires |dados.emitente.cnpj| == 14 && AllDigits(dados.emitente.cnpj) && IsoShaped(iso)
    requires dados.serie < 1000 && dados.numero < 1000000000
    ensures var k := AccessKeyOf(dados, iso, cNF);
      |k| == 44 && k[35..43] == PadStart(DecimalString(cNF), 8)
  {
    KeyPrefixLayout(dados, iso, cNF);
    GeneratedKeyIsValid(dados, iso, cNF);
    var k := AccessKeyOf(dados, iso, cNF);
    var p := KeyPrefix(dados, iso, cNF);
    var d := CheckDigitText(p);
    assert k == p + d;
    assert |k| == 44;
    assert (p + d)[35..43] == p[35..];
  }

  lemma KeyUfField(dados: Request, iso: string, cNF: RandomCode)
    ensures var k := AccessKeyOf(dados, iso, cNF);
      |k| >= 2 && k[..2] == UfCode(dados.emitente.endereco.uf)
  {
    var uf := UfCode(dados.emitente.endereco.uf);
    var head := KeyHead(dados, iso);
    var p := KeyPrefix(dados, iso, cNF);
    var k := AccessKeyOf(dados, iso, cNF);
    assert |uf| == 2;
    LeadingField(uf, YearMonth(iso), dados.emitente.cnpj, ModelCode, PadStart(DecimalString(dados.serie), 3),
      PadStart(DecimalString(dados.numero), 9), EmissionType);
    assert |head| >= 2 && head[..2] == uf;
    TakeHead(head, PadStart(DecimalString(cNF), 8), 2);
    assert |p| >= 2 && p[..2] == uf;
    TakeHead(p, CheckDigitText(p), 2);
  }

  lemma LeadingField(a: string, b: string, c: string, d: string, e: string, f: string, g: string)
    requires |a| == 2
    ensures |a + b + c + d + e + f + g| >= 2 && (a + b + c + d + e + f + g)[..2] == a
  {
    TakeHead(a, b, 2);
    TakeHead(a + b, c, 2);
    TakeHead(a + b + c, d, 2);
    TakeHead(a + b + c + d, e, 2);
    TakeHead(a + b + c + d + e, f, 2);
    TakeHead(a + b + c + d + e + f, g, 2);
  }

  lemma TakeHead(a: string, b: string, n: nat)
    requires n <= |a|
    ensures (a + b)[..n] == a[..n]
  {
  }

  lemma AllDigitsAppend(a: string, b: string)
    requires AllDigits(a) && AllDigits(b)
    ensures AllDigits(a + b)
  {
    assert forall i :: 0 <= i < |a + b| ==> (a + b)[i] == if i < |a| then a[i] else b[i - |a|];
  }

  /** With a 14-digit CNPJ and in-width fields, the generated key is a valid 44-digit key. */
  lemma GeneratedKeyIsValid(dados: Request, iso: string, cNF: RandomCode)
    requires |dados.emitente.cnpj| == 14 && AllDigits(dados.emitente.cnpj) && IsoShaped(iso)
    requires dados.serie < 1000 && dados.numero < 1000000000
    ensures var k := AccessKeyOf(dados, iso, cNF);
      ValidKey(k) && k[..43] == KeyPrefix(dados, iso, cNF)
  {
    var head, codigo := KeyHead(dados, iso), PadStart(DecimalString(cNF), 8);
    var p := KeyPrefix(dados, iso, cNF);
    assert p == head + codigo;
    assert |p| == 43 by { KeyPrefixLayout(dados, iso, cNF); }
    assert AllDigits(p) by {
      KeyHeadDigits(dados, iso);
      PadStartValue(DecimalString(cNF), 8);
      AllDigitsAppend(head, codigo);
    }
    CheckedKey(p);
  }

  /** Appending the check digit to 43 digits gives a valid key. */
  lemma CheckedKey(p: string)
    requires |p| == 43 && AllDigits(p)
    ensures ValidKey(p + CheckDigitText(p)) && (p + CheckDigitText(p))[..43] == p
  {
    var d := CheckDigitText(p);
    assert (p + d)[..43] == p;
    AllDigitsAppend(p, d);
  }

  /** Errors `consultar` raises before it reaches the library. */
  datatype QueryError = KeyNotInformed | KeyWrongLength(digits: nat)

  /**
   * The checks `consultar` makes on a key: a missing or blank key is refused; every
   * non-digit is dropped, and anything but 44 remaining digits is refused.
   */
  function CheckQueryKey(chaveNFe: Option<string>): (r: Result<string, QueryError>)
    ensures r == Failure(KeyNotInformed) <==> chaveNFe.None? || AllSpace(chaveNFe.value)
    ensures r.Success? <==>
      chaveNFe.Some? && !AllSpace(chaveNFe.value) && |OnlyDigits(chaveNFe.value)| == 44
    ensures r.Success? ==> r.value == OnlyDigits(chaveNFe.value) && |r.value| == 44 && AllDigits(r.value)
    ensures r.Failure? && r.error.KeyWrongLength? ==>
      chaveNFe.Some? && r.error.digits == |OnlyDigits(chaveNFe.value)| != 44
  {
    if chaveNFe.None? || chaveNFe.value == "" || Trim(chaveNFe.value) == "" then
      Failure(KeyNotInformed)
    else
      var chaveNumeros := OnlyDigits(chaveNFe.value);
      if |chaveNumeros| != 44 then Failure(KeyWrongLength(|chaveNumeros|)) else Success(chaveNumeros)
  }

  lemma {:induction false} OnlyDigitsAppend(a: string, b: string)
    ensures OnlyDigits(a + b) == OnlyDigits(a) + OnlyDigits(b)
  {
    if |a| > 0 {
      var t, h := a + b, if IsDigit(a[0]) then [a[0]] else "";
      assert t[0] == a[0] && t[1..] == a[1..] + b;
      assert OnlyDigits(t) == h + OnlyDigits(a[1..] + b);
      OnlyDigitsAppend(a[1..], b);
      assert OnlyDigits(a) == h + OnlyDigits(a[1..]);
    } else {
      assert a + b == b;
    }
  }

  /** A key that is not blank and keeps 44 digits passes with those digits. */
  lemma QueryAccepts(s: string)
    requires !AllSpace(s) && |OnlyDigits(s)| == 44
    ensures CheckQueryKey(Some(s)) == Success(OnlyDigits(s))
  {
  }

  /** Every 44-digit key, so every key the service generates, passes the check of `consultar` unchanged. */
  lemma GeneratedKeyQueryable(k: string)
    requires |k| == 44 && AllDigits(k)
    ensures CheckQueryKey(Some(k)) == Success(k)
  {
    assert !IsJsSpace(k[0]);
    QueryAccepts(k);
  }

  /** Separators between the digits of a key (spaces, dots, dashes) are stripped before the length check. */
  lemma SeparatedKeyQueryable(k: string, n: nat, sep: string)
    requires |k| == 44 && AllDigits(k) && n <= 44
    requires NoDigit(sep)
    ensures CheckQueryKey(Some(k[..n] + sep + k[n..])) == Success(k)
  {
    var s := k[..n] + sep + k[n..];
    assert OnlyDigits(s) == k by { SeparatorsDropped(k, n, sep); }
    assert !AllSpace(s) by {
      if n > 0 {
        assert s[0] == k[0];
      } else {
        assert s[|sep|] == k[0];
      }
    }
    QueryAccepts(s);
  }

  /** The usual written form, digits in groups split by spaces, is accepted as the plain key. */
  lemma SpaceSeparatedKeyQueryable(k: string, n: nat)
    requires |k| == 44 && AllDigits(k) && n <= 44
    ensures CheckQueryKey(Some(k[..n] + " " + k[n..])) == Success(k)
  {
    SeparatedKeyQueryable(k, n, " ");
  }

  lemma SeparatorsDropped(k: string, n: nat, sep: string)
    requires |k| == 44 && AllDigits(k) && n <= 44
    requires NoDigit(sep)
    ensures OnlyDigits(k[..n] + sep + k[n..]) == k
  {
    var a, b := k[..n], k[n..];
    assert a + b == k;
    assert AllDigits(a) && AllDigits(b) by {
      AllDigitsSplit(k, n);
    }
    DigitsAroundSeparator(a, sep, b);
  }

  lemma AllDigitsSplit(k: string, n: nat)
    requires AllDigits(k) && n <= |k|
    ensures AllDigits(k[..n]) && AllDigits(k[n..])
  {
    assert forall i :: 0 <= i < n ==> k[..n][i] == k[i];
    assert forall i :: 0 <= i < |k| - n ==> k[n..][i] == k[n + i];
  }

  lemma DigitsAroundSeparator(a: string, sep: string, b: string)
    requires AllDigits(a) && AllDigits(b) && NoDigit(sep)
    ensures OnlyDigits(a + sep + b) == a + b
  {
    calc {
      OnlyDigits(a + sep + b);
      { OnlyDigitsAppend(a + sep, b); }
      OnlyDigits(a + sep) + OnlyDigits(b);
      { OnlyDigitsAppend(a, sep); }
      OnlyDigits(a) + "" + b;
      { assert OnlyDigits(a) + "" == a; }
      a + b;
    }
  }
}

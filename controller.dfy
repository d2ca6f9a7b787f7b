/**
 * What the HTTP controller decides from the library's output: the verdict and message
 * of `enviar`, read from the parsed reply with JavaScript's optional chaining and `||`,
 * and the access key that `criarNFe` and `criarAssinarValidar` pick out of the document
 * with the pattern `Id="NFe(\d{44})"`.
 */
module Controller {
  import opened Wrappers
  import opened JsText
  import opened ReplyParser
  import opened Xml
  import opened Invoice
  import opened AccessKey
  import opened Assembler

  /** The JavaScript values a read of the parsed object can give. */
  datatype JsValue = Undefined | Null | Str(s: string) | Obj

  function FieldValue(o: Option<string>): (v: JsValue)
    ensures v.Str? || v == Null
  {
    if o.Some? then Str(o.value) else Null
  }

  /** `parsed[key]`. */
  function TopLevel(parsed: map<string, Entry>, key: string): JsValue {
    if key !in parsed then Undefined
    else match parsed[key]
      case Value(o) => FieldValue(o)
      case Section(_) => Obj
  }

  /** `parsed[section]?.[key]`: a null or text entry has no such property. */
  function InSection(parsed: map<string, Entry>, section: string, key: string): JsValue {
    if section !in parsed then Undefined
    else match parsed[section]
      case Section(fields) => if key in fields then FieldValue(fields[key]) else Undefined
      case Value(_) => Undefined
  }

  predicate Truthy(v: JsValue) { (v.Str? && v.s != "") || v.Obj? }

  /** `a || b`. */
  function Or(a: JsValue, b: JsValue): (r: JsValue)
    ensures Truthy(a) ==> r == a
    ensures !Truthy(a) ==> r == b
  {
    if Truthy(a) then a else b
  }

  /** `${v}`. */
  function Interpolate(v: JsValue): string {
    match v
    case Undefined => "undefined"
    case Null => "null"
    case Str(s) => s
    case Obj => "[object Object]"
  }

  const Envio := "Envio"

  /** 100 authorised, 101 cancelled, 150 authorised late. */
  const AcceptedCodes: set<string> := {"100", "101", "150"}

  const AuthorisedMessage := "NFe autorizada com sucesso!"

  const RejectionPrefix := "Rejeição: "

  /** `parsed.Envio?.CStat || parsed.CStat`. */
  function StatusCode(parsed: map<string, Entry>): JsValue {
    Or(InSection(parsed, Envio, "CStat"), TopLevel(parsed, "CStat"))
  }

  /** Strict comparison with the three accepted codes: only text can be equal to them. */
  predicate Authorised(parsed: map<string, Entry>) {
    StatusCode(parsed).Str? && StatusCode(parsed).s in AcceptedCodes
  }

  /** `parsed.Envio?.XMotivo || parsed.XMotivo`. */
  function Reason(parsed: map<string, Entry>): JsValue {
    Or(InSection(parsed, Envio, "XMotivo"), TopLevel(parsed, "XMotivo"))
  }

  datatype Verdict = Verdict(success: bool, message: string)

  /** The `success` and `message` fields `enviar` returns for a parsed reply. */
  function Decide(parsed: map<string, Entry>): (v: Verdict)
    ensures v.success ==> v.message == AuthorisedMessage
    ensures !v.success ==> v.message == RejectionPrefix + Interpolate(Reason(parsed))
  {
    var ok := Authorised(parsed);
    Verdict(ok, if ok then AuthorisedMessage else RejectionPrefix + Interpolate(Reason(parsed)))
  }

  /** The code `c` under `[Envio]`, when not empty, decides alone. */
  lemma SectionStatusDecides(parsed: map<string, Entry>, fields: map<string, Option<string>>, c: string)
    requires Envio in parsed && parsed[Envio] == Section(fields)
    requires "CStat" in fields && fields["CStat"] == Some(c) && c != ""
    ensures Decide(parsed).success <==> c in AcceptedCodes
  {
  }

  /** Without a non-empty code under `[Envio]`, the top-level code decides. */
  lemma FallbackStatusDecides(parsed: map<string, Entry>)
    requires !Truthy(InSection(parsed, Envio, "CStat"))
    ensures Decide(parsed).success
        <==> "CStat" in parsed && parsed["CStat"].Value? && parsed["CStat"].v.Some?
             && parsed["CStat"].v.value in AcceptedCodes
  {
  }

  /** No code at all, or a null one, is a rejection. */
  lemma MissingStatusRejects(parsed: map<string, Entry>)
    requires !Truthy(InSection(parsed, Envio, "CStat"))
    requires "CStat" !in parsed || parsed["CStat"] == Value(None)
    ensures !Decide(parsed).success
  {
  }

  /** The rejection reason is taken from `[Envio]` when given there, else from the top level. */
  lemma RejectionReason(parsed: map<string, Entry>)
    requires !Decide(parsed).success
    ensures var m := Decide(parsed).message;
      && (Envio in parsed && parsed[Envio].Section? && "XMotivo" in parsed[Envio].fields
          && Present(parsed[Envio].fields["XMotivo"])
          ==> m == RejectionPrefix + parsed[Envio].fields["XMotivo"].value)
      && (!Truthy(InSection(parsed, Envio, "XMotivo")) && "XMotivo" in parsed && parsed["XMotivo"].Value?
          && parsed["XMotivo"].v.Some?
          ==> m == RejectionPrefix + parsed["XMotivo"].v.value)
      && (!Truthy(InSection(parsed, Envio, "XMotivo")) && "XMotivo" !in parsed ==> m == RejectionPrefix + "undefined")
  {
  }

  /** A reply whose `[Envio]` section holds the code `c` is authorised exactly for the three accepted codes. */
  lemma EnvioSectionDecides(header: string, body: seq<string>, c: string)
    requires IsHeader(Trim(header)) && HeaderName(Trim(header)) == Envio && NoHeader(body)
    requires "CStat" in Pairs(body) && Pairs(body)["CStat"] == Some(c)
    ensures Decide(Run(Init(), [header] + body).parsed).success <==> c in AcceptedCodes
  {
    var parsed := Run(Init(), [header] + body).parsed;
    var fields := Pairs(body);
    assert Envio in parsed && parsed[Envio] == Section(fields) && NoEmptyField(fields) by {
      EnvioSectionRead(header, body);
    }
    assert c != "" by {
      assert NonEmptyOrNull(fields["CStat"]);
    }
    SectionStatusDecides(parsed, fields, c);
  }

  lemma EnvioSectionRead(header: string, body: seq<string>)
    requires IsHeader(Trim(header)) && HeaderName(Trim(header)) == Envio && NoHeader(body)
    ensures var parsed := Run(Init(), [header] + body).parsed;
      Envio in parsed && parsed[Envio] == Section(Pairs(body)) && NoEmptyField(Pairs(body))
  {
    SectionReads(Init(), header, body);
    var parsed := Run(Init(), [header] + body).parsed;
    RunKeepsNoEmptyValues(Init(), [header] + body);
    assert EntryOk(parsed[Envio]);
  }

  const IdMarker := "Id=\"NFe"

  /** `Id="NFe`, then 44 digits, then `"`, starting at `j`. */
  predicate KeyAt(xml: string, j: nat) {
    j + 52 <= |xml| && xml[j..j + 7] == IdMarker && AllDigits(xml[j + 7..j + 51]) && xml[j + 51] == '"'
  }

  /** Where the first match at or after `j` starts. */
  function FirstKeyFrom(xml: string, j: nat): (r: Option<nat>)
    ensures r.None? ==> forall i: nat :: j <= i ==> !KeyAt(xml, i)
    ensures r.Some? ==> j <= r.value && KeyAt(xml, r.value)
                        && forall i: nat :: j <= i < r.value ==> !KeyAt(xml, i)
    decreases |xml| - j
  {
    if j + 52 > |xml| then None
    else if KeyAt(xml, j) then Some(j)
    else FirstKeyFrom(xml, j + 1)
  }

  /**
   * `xml.match(/Id="NFe(\d{44})"/)` and its first group, or null: the 44 digits of
   * the leftmost match.
   */
  function ExtractKey(xml: string): (r: Option<string>)
    ensures r.Some? ==> |r.value| == 44 && AllDigits(r.value)
    ensures r.None? <==> forall i: nat :: !KeyAt(xml, i)
  {
    match FirstKeyFrom(xml, 0)
    case None => None
    case Some(p) => Some(xml[p + 7..p + 51])
  }

  /** The leftmost match is found: every match is at or after the one returned. */
  lemma ExtractKeyLeftmost(xml: string, p: nat)
    requires KeyAt(xml, p) && forall i: nat :: i < p ==> !KeyAt(xml, i)
    ensures ExtractKey(xml) == Some(xml[p + 7..p + 51])
  {
    var r := FirstKeyFrom(xml, 0);
    assert r.Some?;
    assert !(r.value < p) && !(p < r.value);
  }

  /** Text after a match does not change which match comes first. */
  lemma ExtractKeyExtend(u: string, v: string)
    requires ExtractKey(u).Some?
    ensures ExtractKey(u + v) == ExtractKey(u)
  {
    var p := FirstKeyFrom(u, 0).value;
    KeyAtExtend(u, v, p);
    forall i: nat | i < p ensures !KeyAt(u + v, i) {
      KeyAtExtend(u, v, i);
    }
    ExtractKeyLeftmost(u + v, p);
    assert (u + v)[p + 7..p + 51] == u[p + 7..p + 51];
  }

  /** A match that ends inside `u` is a match in `u + v` and the other way round. */
  lemma KeyAtExtend(u: string, v: string, i: nat)
    requires i + 52 <= |u|
    ensures KeyAt(u + v, i) <==> KeyAt(u, i)
  {
    var w := u + v;
    assert w[i..i + 7] == u[i..i + 7];
    assert w[i + 7..i + 51] == u[i + 7..i + 51];
    assert w[i + 51] == u[i + 51];
  }

  /** Text before the match without an `I` in it cannot start a match. */
  predicate FreeOfMarker(s: string) { forall i :: 0 <= i < |s| ==> s[i] != 'I' }

  lemma FreeOfMarkerAppend(a: string, b: string)
    requires FreeOfMarker(a) && FreeOfMarker(b)
    ensures FreeOfMarker(a + b)
  {
  }

  /** A match keeps its place in the order of matches when text without an `I` comes before. */
  lemma ExtractKeyPrepend(pre: string, s: string)
    requires FreeOfMarker(pre) && ExtractKey(s).Some?
    ensures ExtractKey(pre + s) == ExtractKey(s)
  {
    var q := FirstKeyFrom(s, 0).value;
    KeyAtShift(pre, s, q);
    NoKeyBefore(pre, s, q);
    ExtractKeyLeftmost(pre + s, |pre| + q);
  }

  lemma NoKeyBefore(pre: string, s: string, q: nat)
    requires FreeOfMarker(pre) && forall i: nat :: i < q ==> !KeyAt(s, i)
    ensures forall i: nat :: i < |pre| + q ==> !KeyAt(pre + s, i)
  {
    forall i: nat | i < |pre| + q ensures !KeyAt(pre + s, i) {
      if i < |pre| {
        KeyStartsWithI(pre + s, i);
      } else {
        KeyAtShift(pre, s, i - |pre|);
      }
    }
  }

  lemma KeyStartsWithI(w: string, i: nat)
    ensures KeyAt(w, i) ==> w[i] == 'I'
  {
    if KeyAt(w, i) {
      assert w[i..i + 7][0] == w[i];
    }
  }

  /** A match in `s` is a match in `pre + s`, shifted by the length of `pre`, with the same digits. */
  lemma KeyAtShift(pre: string, s: string, i: nat)
    ensures KeyAt(pre + s, |pre| + i) <==> KeyAt(s, i)
    ensures KeyAt(s, i) ==> (pre + s)[|pre| + i + 7..|pre| + i + 51] == s[i + 7..i + 51]
  {
    var w := pre + s;
    var j := |pre| + i;
    if i + 52 <= |s| {
      assert w[j..j + 7] == s[i..i + 7];
      assert w[j + 7..j + 51] == s[i + 7..i + 51];
      assert w[j + 51] == s[i + 51];
    }
  }

  /** The `Id` attribute holds the only place a match can start in the opening tag of `infNFe`. */
  lemma InfNFeTagKey(chave: string)
    requires |chave| == 44 && AllDigits(chave)
    ensures ExtractKey(OpenTag("infNFe", InfNFeAttrs(chave))) == Some(chave)
  {
    InfNFeAttrsKey(chave);
    ExtractKeyPrepend("<" + "infNFe", AttrsText(InfNFeAttrs(chave)));
    ExtractKeyExtend("<" + "infNFe" + AttrsText(InfNFeAttrs(chave)), ">");
  }

  lemma InfNFeAttrsKey(chave: string)
    requires |chave| == 44 && AllDigits(chave)
    ensures ExtractKey(AttrsText(InfNFeAttrs(chave))) == Some(chave)
  {
    var id := IdMarker + chave + "\"";
    assert id[..7] == IdMarker && id[7..51] == chave;
    ExtractKeyLeftmost(id, 0);
    var rest := AttrsText([Attr("versao", "4.00")]);
    assert InfNFeAttrs(chave)[1..] == [Attr("versao", "4.00")];
    assert AttrsText(InfNFeAttrs(chave)) == " " + "Id" + "=\"" + ("NFe" + chave) + "\"" + rest;
    assert " " + "Id" + "=\"" + ("NFe" + chave) + "\"" == " " + id;
    ExtractKeyPrepend(" ", id);
    ExtractKeyExtend(" " + id, rest);
  }

  /** Nothing before the opening tag of `infNFe` can start a match. */
  lemma DocumentHeadPlain()
    ensures FreeOfMarker(Declaration + "\n" + OpenTag("NFe", RootAttrs()) + "\n" + Indent(1))
  {
    var o1 := OpenTag("NFe", RootAttrs());
    RootTagPlain();
    assert FreeOfMarker(Declaration);
    FreeOfMarkerAppend(Declaration, "\n");
    FreeOfMarkerAppend(Declaration + "\n", o1);
    FreeOfMarkerAppend(Declaration + "\n" + o1, "\n");
    FreeOfMarkerAppend(Declaration + "\n" + o1 + "\n", Indent(1));
  }

  lemma RootTagPlain()
    ensures FreeOfMarker(OpenTag("NFe", RootAttrs()))
  {
    var x := AttrsText(RootAttrs());
    assert RootAttrs()[1..] == [];
    assert x == " " + "xmlns" + "=\"" + Namespace + "\"" + "";
    assert FreeOfMarker(Namespace);
    FreeOfMarkerAppend(" " + "xmlns" + "=\"", Namespace);
    FreeOfMarkerAppend(" " + "xmlns" + "=\"" + Namespace, "\"");
    FreeOfMarkerAppend("<" + "NFe", x);
    FreeOfMarkerAppend("<" + "NFe" + x, ">");
  }

  /** The access key is found again, whole, in the document the service writes for it. */
  lemma DocumentKeyFound(dados: Request, agora: Instant, cNF: RandomCode, fmt: Formatter)
    requires |dados.emitente.cnpj| == 14 && AllDigits(dados.emitente.cnpj) && IsoShaped(agora.iso)
    requires dados.serie < 1000 && dados.numero < 1000000000
    ensures ExtractKey(Render(DocumentOf(dados, agora, cNF), fmt)) == Some(AccessKeyOf(dados, agora.iso, cNF))
  {
    var chave := AccessKeyOf(dados, agora.iso, cNF);
    GeneratedKeyIsValid(dados, agora.iso, cNF);
    var kids := Blocks(dados, agora, chave);
    TwoLevelRender("NFe", RootAttrs(), "infNFe", InfNFeAttrs(chave), kids, fmt);
    var i, k := Indent(1), MarkupSeq(kids, 2, fmt);
    var d := Declaration + "\n" + OpenTag("NFe", RootAttrs()) + "\n" + i;
    var o2 := OpenTag("infNFe", InfNFeAttrs(chave));
    DocumentHeadPlain();
    InfNFeTagKey(chave);
    ExtractKeyPrepend(d, o2);
    ExtractKeyExtend(d + o2, "\n");
    ExtractKeyExtend(d + o2 + "\n", k);
    ExtractKeyExtend(d + o2 + "\n" + k, i);
    ExtractKeyExtend(d + o2 + "\n" + k + i, CloseTag("infNFe"));
    ExtractKeyExtend(d + o2 + "\n" + k + i + CloseTag("infNFe"), "\n");
    ExtractKeyExtend(d + o2 + "\n" + k + i + CloseTag("infNFe") + "\n", CloseTag("NFe"));
  }
}

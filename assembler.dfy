/**
 * `jsonParaXML`: the NF-e layout 4.00 document for one request. The blocks come in a
 * fixed order: identification, issuer, recipient, one `det` per product, totals,
 * transport, payments, optional additional information, technical contact. The
 * instant, the random `cNF` and `toFixed` are parameters.
 */
module Assembler {
  import opened Wrappers
  import opened JsText
  import opened Invoice
  import opened Xml
  import opened AccessKey
  import opened TaxEncoder

  /** `produtos.reduce((sum, p) => sum + f(p), 0)`. */
  function Sum(ps: seq<Product>, f: Product -> Num): Num {
    if |ps| == 0 then 0 else Sum(ps[..|ps| - 1], f) + f(ps[|ps| - 1])
  }

  /** Summing two runs of products one after the other adds their sums. */
  lemma {:induction false} SumAppend(a: seq<Product>, b: seq<Product>, f: Product -> Num)
    ensures Sum(a + b, f) == Sum(a, f) + Sum(b, f)
  {
    if |b| == 0 {
      assert a + b == a;
    } else {
      assert (a + b)[..|a + b| - 1] == a + b[..|b| - 1];
      SumAppend(a, b[..|b| - 1], f);
    }
  }

  datatype Totals = Totals(vBC: Num, vICMS: Num, vProd: Num, vPIS: Num, vCOFINS: Num)

  function ItemTotals(p: Product): Totals {
    Totals(IcmsBase(p), IcmsValue(p), ProductValue(p), PisValue(p), CofinsValue(p))
  }

  function AddTotals(x: Totals, y: Totals): Totals {
    Totals(x.vBC + y.vBC, x.vICMS + y.vICMS, x.vProd + y.vProd, x.vPIS + y.vPIS, x.vCOFINS + y.vCOFINS)
  }

  function IcmsBase(p: Product): Num { OrZero(p.imposto.icms.vBC) }
  function IcmsValue(p: Product): Num { OrZero(p.imposto.icms.vICMS) }
  function ProductValue(p: Product): Num { p.vProd }
  function PisValue(p: Product): Num { OrZero(p.imposto.pis.vPIS) }
  function CofinsValue(p: Product): Num { OrZero(p.imposto.cofins.vCOFINS) }

  /** The five sums of the totals block; a missing tax value counts as 0. */
  function TotalsOf(ps: seq<Product>): Totals {
    Totals(Sum(ps, IcmsBase), Sum(ps, IcmsValue), Sum(ps, ProductValue), Sum(ps, PisValue), Sum(ps, CofinsValue))
  }

  /** The totals of a list of products are its items' totals added up, item by item. */
  lemma TotalsAppend(ps: seq<Product>, p: Product)
    ensures TotalsOf(ps + [p]) == AddTotals(TotalsOf(ps), ItemTotals(p))
  {
    assert (ps + [p])[..|ps|] == ps;
  }

  /** `if (o) <tag>o</tag>` for an optional text field. */
  function OptionalText(tag: string, o: Option<string>): (r: seq<Node>)
    ensures LeafText(r, tag) == if Present(o) then Some(Plain(o.value)) else None
  {
    if Present(o) then [Leaf(tag, Plain(o.value))] else []
  }

  /** `o || d` for an optional number. */
  function NumOr(o: Option<Num>, d: Num): (r: Num)
    ensures NonZero(o) ==> r == o.value
    ensures !NonZero(o) ==> r == d
  {
    if NonZero(o) then o.value else d
  }

  function PlainLeaf(tag: string, s: string): Node { Leaf(tag, Plain(s)) }

  const NoGtin := "SEM GTIN"
  const BrazilCode := "1058"
  const BrazilName := "BRASIL"

  /** `enderEmit` (with the phone when given) or `enderDest` (never with a phone). */
  function AddressNode(tag: string, a: Address, withPhone: bool): Node {
    Elem(tag, [], AddressFields(a) + (if withPhone then OptionalText("fone", a.fone) else []))
  }

  /** The address fields before the phone, the complement only when given. */
  function AddressFields(a: Address): seq<Node> {
    [PlainLeaf("xLgr", a.xLgr), PlainLeaf("nro", a.nro)]
    + OptionalText("xCpl", a.xCpl)
    + [PlainLeaf("xBairro", a.xBairro), PlainLeaf("cMun", a.cMun), PlainLeaf("xMun", a.xMun),
       PlainLeaf("UF", a.uf), PlainLeaf("CEP", a.cep),
       PlainLeaf("cPais", OrDefault(a.cPais, BrazilCode)), PlainLeaf("xPais", OrDefault(a.xPais, BrazilName))]
  }

  /** `<ide>`: the identification block; `chave` is the access key generated for the request. */
  function IdeNode(dados: Request, agora: Instant, chave: string): Node {
    Elem("ide", [], [
      PlainLeaf("cUF", UfCode(dados.emitente.endereco.uf)),
      PlainLeaf("cNF", Substring(chave, 35, 43)),
      PlainLeaf("natOp", dados.naturezaOperacao),
      PlainLeaf("mod", "55"),
      PlainLeaf("serie", DecimalString(dados.serie)),
      PlainLeaf("nNF", DecimalString(dados.numero)),
      PlainLeaf("dhEmi", OrDefault(dados.dataEmissao, agora.sefaz)),
      PlainLeaf("tpNF", dados.tpNF),
      PlainLeaf("idDest", dados.idDest),
      PlainLeaf("cMunFG", dados.emitente.endereco.cMun),
      PlainLeaf("tpImp", "1"),
      PlainLeaf("tpEmis", "1"),
      PlainLeaf("cDV", IndexText(chave, 43)),
      PlainLeaf("tpAmb", OrDefault(dados.tpAmb, "2")),
      PlainLeaf("finNFe", dados.finNFe),
      PlainLeaf("indFinal", dados.indFinal),
      PlainLeaf("indPres", dados.indPres),
      PlainLeaf("procEmi", "0"),
      PlainLeaf("verProc", "1.0")])
  }

  function EmitNode(e: Issuer): Node {
    Elem("emit", [],
      [PlainLeaf("CNPJ", e.cnpj), PlainLeaf("xNome", e.xNome)]
      + OptionalText("xFant", e.xFant)
      + [AddressNode("enderEmit", e.endereco, true), PlainLeaf("IE", e.ie), PlainLeaf("CRT", e.crt)])
  }

  function DestNode(d: Recipient): Node {
    Elem("dest", [],
      OptionalText("CNPJ", d.cnpj) + OptionalText("CPF", d.cpf)
      + [PlainLeaf("xNome", d.xNome), AddressNode("enderDest", d.endereco, false), PlainLeaf("indIEDest", d.indIEDest)]
      + OptionalText("IE", d.ie) + OptionalText("email", d.email))
  }

  /** `<prod>`: the product line, with its taxable-unit fields defaulting to the commercial ones. */
  function ProdNode(p: Product): Node {
    Elem("prod", [], [
      PlainLeaf("cProd", p.cProd),
      PlainLeaf("cEAN", OrDefault(p.cEAN, NoGtin)),
      PlainLeaf("xProd", p.xProd),
      PlainLeaf("NCM", p.ncm),
      PlainLeaf("CFOP", p.cfop),
      PlainLeaf("uCom", p.uCom),
      Leaf("qCom", Fixed(p.qCom, 4)),
      Leaf("vUnCom", Fixed(p.vUnCom, 10)),
      Leaf("vProd", Money(p.vProd)),
      PlainLeaf("cEANTrib", OrDefault(p.cEANTrib, OrDefault(p.cEAN, NoGtin))),
      PlainLeaf("uTrib", OrDefault(p.uTrib, p.uCom)),
      Leaf("qTrib", Fixed(NumOr(p.qTrib, p.qCom), 4)),
      Leaf("vUnTrib", Fixed(NumOr(p.vUnTrib, p.vUnCom), 10)),
      PlainLeaf("indTot", OrDefault(p.indTot, "1"))])
  }

  /** `<det nItem="…">`: one product with its taxes. */
  function DetNode(p: Product, nItem: nat): Node {
    Elem("det", [Attr("nItem", DecimalString(nItem))], [ProdNode(p), TaxesNode(p.imposto)])
  }

  /** One `det` per product, in input order, numbered from 1. */
  function DetNodes(ps: seq<Product>): (ds: seq<Node>)
    ensures |ds| == |ps|
  {
    seq(|ps|, k requires 0 <= k < |ps| => DetNode(ps[k], k + 1))
  }

  /** `<total>`: the five sums, `vNF` equal to the products' sum, every other amount "0.00". */
  function TotalNode(t: Totals): Node {
    Elem("total", [], [Elem("ICMSTot", [], [
      Leaf("vBC", Money(t.vBC)),
      Leaf("vICMS", Money(t.vICMS)),
      PlainLeaf("vICMSDeson", "0.00"),
      PlainLeaf("vFCP", "0.00"),
      PlainLeaf("vBCST", "0.00"),
      PlainLeaf("vST", "0.00"),
      PlainLeaf("vFCPST", "0.00"),
      PlainLeaf("vFCPSTRet", "0.00"),
      Leaf("vProd", Money(t.vProd)),
      PlainLeaf("vFrete", "0.00"),
      PlainLeaf("vSeg", "0.00"),
      PlainLeaf("vDesc", "0.00"),
      PlainLeaf("vII", "0.00"),
      PlainLeaf("vIPI", "0.00"),
      PlainLeaf("vIPIDevol", "0.00"),
      Leaf("vPIS", Money(t.vPIS)),
      Leaf("vCOFINS", Money(t.vCOFINS)),
      PlainLeaf("vOutro", "0.00"),
      Leaf("vNF", Money(t.vProd))])])
  }

  /** `transporte?.modFrete || '9'`. */
  function FreightMode(t: Option<Transport>): string {
    if t.Some? then OrDefault(Some(t.value.modFrete), "9") else "9"
  }

  function TranspNode(t: Option<Transport>): Node {
    Elem("transp", [], [PlainLeaf("modFrete", FreightMode(t))])
  }

  function DetPagNode(g: Payment): Node {
    Elem("detPag", [], [PlainLeaf("indPag", OrDefault(g.indPag, "0")), PlainLeaf("tPag", g.tPag),
                        Leaf("vPag", Money(g.vPag))])
  }

  function DetPagNodes(gs: seq<Payment>): (ds: seq<Node>)
    ensures |ds| == |gs|
  {
    seq(|gs|, k requires 0 <= k < |gs| => DetPagNode(gs[k]))
  }

  function InfAdicNodes(infCpl: Option<string>): seq<Node> {
    if Present(infCpl) then [Elem("infAdic", [], [PlainLeaf("infCpl", infCpl.value)])] else []
  }

  /** The fixed technical contact written into every document. */
  const RespTecNode: Node :=
    Elem("infRespTec", [], [PlainLeaf("CNPJ", "99999999000191"), PlainLeaf("xContato", "Suporte Tecnico"),
                            PlainLeaf("email", "suporte@seuteste.com.br"), PlainLeaf("fone", "1133334444")])

  /** Identification, issuer and recipient: the blocks before the products. */
  function LeadingBlocks(dados: Request, agora: Instant, chave: string): seq<Node> {
    [IdeNode(dados, agora, chave), EmitNode(dados.emitente), DestNode(dados.destinatario)]
  }

  /** Totals, transport, payments, additional information when given, technical contact. */
  function TrailingBlocks(dados: Request): seq<Node> {
    [TotalNode(TotalsOf(dados.produtos)), TranspNode(dados.transporte), Elem("pag", [], DetPagNodes(dados.pagamentos))]
    + InfAdicNodes(dados.infCpl)
    + [RespTecNode]
  }

  /** The blocks inside `infNFe`, in document order. */
  function Blocks(dados: Request, agora: Instant, chave: string): seq<Node> {
    LeadingBlocks(dados, agora, chave) + DetNodes(dados.produtos) + TrailingBlocks(dados)
  }

  const Namespace := "http://www.portalfiscal.inf.br/nfe"

  function RootAttrs(): seq<Attr> { [Attr("xmlns", Namespace)] }

  function InfNFeAttrs(chave: string): seq<Attr> { [Attr("Id", "NFe" + chave), Attr("versao", "4.00")] }

  /** The document tree for a request, its emission instant and its `cNF`. */
  function DocumentOf(dados: Request, agora: Instant, cNF: RandomCode): Node {
    var chave := AccessKeyOf(dados, agora.iso, cNF);
    Elem("NFe", RootAttrs(), [Elem("infNFe", InfNFeAttrs(chave), Blocks(dados, agora, chave))])
  }

  lemma TakeSnoc<T>(s: seq<T>, i: nat)
    requires i < |s|
    ensures s[..i + 1] == s[..i] + [s[i]]
  {
  }

  /**
   * `jsonParaXML`: writes the document line by line, the products and the payments by
   * a loop each, and returns exactly the rendering of `DocumentOf`.
   */
  method JsonToXml(dados: Request, agora: Instant, cNF: RandomCode, fmt: Formatter) returns (xml: string)
    ensures xml == Render(DocumentOf(dados, agora, cNF), fmt)
  {
    var chave := GenerateKey(dados, agora, cNF);
    xml := Declaration + "\n";
    xml := xml + OpenTag("NFe", RootAttrs()) + "\n";
    xml := xml + Indent(1) + OpenTag("infNFe", InfNFeAttrs(chave)) + "\n";
    ghost var top := xml;
    xml := WriteLeading(xml, dados, agora, chave, fmt);
    xml := WriteItems(xml, dados.produtos, fmt);
    xml := WriteTrailing(xml, dados, fmt);
    xml := xml + Indent(1) + CloseTag("infNFe") + "\n";
    xml := xml + CloseTag("NFe");

    var lead, dets, trail := LeadingBlocks(dados, agora, chave), DetNodes(dados.produtos), TrailingBlocks(dados);
    MarkupSeqAppend(lead + dets, trail, 2, fmt);
    MarkupSeqAppend(lead, dets, 2, fmt);
    Assoc(top, MarkupSeq(lead, 2, fmt) + MarkupSeq(dets, 2, fmt), MarkupSeq(trail, 2, fmt));
    Assoc(top, MarkupSeq(lead, 2, fmt), MarkupSeq(dets, 2, fmt));
    assert DocumentOf(dados, agora, cNF) == Elem("NFe", RootAttrs(), [Elem("infNFe", InfNFeAttrs(chave), lead + dets + trail)]);
    TwoLevelRender("NFe", RootAttrs(), "infNFe", InfNFeAttrs(chave), lead + dets + trail, fmt);
  }

  /** Identification, issuer and recipient, one after the other. */
  method WriteLeading(xml0: string, dados: Request, agora: Instant, chave: string, fmt: Formatter) returns (xml: string)
    ensures xml == xml0 + MarkupSeq(LeadingBlocks(dados, agora, chave), 2, fmt)
  {
    var ide := IdeNode(dados, agora, chave);
    var emit := EmitNode(dados.emitente);
    var dest := DestNode(dados.destinatario);
    xml := xml0 + Markup(ide, 2, fmt);
    xml := xml + Markup(emit, 2, fmt);
    xml := xml + Markup(dest, 2, fmt);
    ThreeBlocks(xml0, ide, emit, dest, 2, fmt);
  }

  /** Totals, transport, the payments' group, the optional notes and the technical contact. */
  method WriteTrailing(xml0: string, dados: Request, fmt: Formatter) returns (xml: string)
    ensures xml == xml0 + MarkupSeq(TrailingBlocks(dados), 2, fmt)
  {
    var total := TotalNode(TotalsOf(dados.produtos));
    var transp := TranspNode(dados.transporte);
    var pag := Elem("pag", [], DetPagNodes(dados.pagamentos));
    xml := xml0 + Markup(total, 2, fmt);
    xml := xml + Markup(transp, 2, fmt);
    xml := WritePayments(xml, dados.pagamentos, fmt);
    xml := WriteNotes(xml, dados.infCpl, fmt);
    xml := xml + Markup(RespTecNode, 2, fmt);
    TrailingPieces(xml0, total, transp, pag, InfAdicNodes(dados.infCpl), RespTecNode, 2, fmt);
  }

  /** `infAdic` with its `infCpl` line, only when notes are given. */
  method WriteNotes(xml0: string, infCpl: Option<string>, fmt: Formatter) returns (xml: string)
    ensures xml == xml0 + MarkupSeq(InfAdicNodes(infCpl), 2, fmt)
  {
    xml := xml0;
    if Present(infCpl) {
      var infAdic := Elem("infAdic", [], [PlainLeaf("infCpl", infCpl.value)]);
      xml := xml + Markup(infAdic, 2, fmt);
      assert MarkupSeq([infAdic], 2, fmt) == Markup(infAdic, 2, fmt) + MarkupSeq([], 2, fmt);
    }
  }

  /** Three blocks, a run of optional ones and a last one, written one after the other. */
  lemma TrailingPieces(h: string, a: Node, b: Node, c: Node, x: seq<Node>, r: Node, depth: nat, fmt: Formatter)
    ensures h + Markup(a, depth, fmt) + Markup(b, depth, fmt) + Markup(c, depth, fmt) + MarkupSeq(x, depth, fmt)
            + Markup(r, depth, fmt)
         == h + MarkupSeq([a, b, c] + x + [r], depth, fmt)
  {
    ThreeBlocks(h, a, b, c, depth, fmt);
    MarkupSeqAppend([a, b, c], x, depth, fmt);
    Assoc(h, MarkupSeq([a, b, c], depth, fmt), MarkupSeq(x, depth, fmt));
    MarkupSeqSnoc(h, [a, b, c] + x, r, depth, fmt);
  }

  lemma ThreeBlocks(h: string, a: Node, b: Node, c: Node, depth: nat, fmt: Formatter)
    ensures h + Markup(a, depth, fmt) + Markup(b, depth, fmt) + Markup(c, depth, fmt) == h + MarkupSeq([a, b, c], depth, fmt)
  {
    var ma := Markup(a, depth, fmt);
    assert MarkupSeq([a], depth, fmt) == ma + MarkupSeq([], depth, fmt);
    assert ma + "" == ma;
    assert h + ma == h + MarkupSeq([a], depth, fmt);
    MarkupSeqSnoc(h, [a], b, depth, fmt);
    assert [a] + [b] == [a, b];
    MarkupSeqSnoc(h, [a, b], c, depth, fmt);
    assert [a, b] + [c] == [a, b, c];
  }

  /** The products' loop: one `det` per product, numbered from 1, appended in order. */
  method WriteItems(xml0: string, ps: seq<Product>, fmt: Formatter) returns (xml: string)
    ensures xml == xml0 + MarkupSeq(DetNodes(ps), 2, fmt)
  {
    xml := xml0;
    var i := 0;
    assert xml == xml0 + MarkupSeq(DetNodes(ps)[..i], 2, fmt);
    while i < |ps|
      invariant 0 <= i <= |ps|
      invariant xml == xml0 + MarkupSeq(DetNodes(ps)[..i], 2, fmt)
    {
      var det := DetNode(ps[i], i + 1);
      MarkupSeqSnoc(xml0, DetNodes(ps)[..i], det, 2, fmt);
      TakeSnoc(DetNodes(ps), i);
      xml := xml + Markup(det, 2, fmt);
      i := i + 1;
    }
    assert DetNodes(ps)[..i] == DetNodes(ps);
  }

  /** The payments' loop inside `<pag>`: one `detPag` per payment, in order. */
  method WritePayments(xml0: string, gs: seq<Payment>, fmt: Formatter) returns (xml: string)
    ensures xml == xml0 + Markup(Elem("pag", [], DetPagNodes(gs)), 2, fmt)
  {
    xml := xml0 + Indent(2) + OpenTag("pag", []) + "\n";
    ghost var head := xml;
    var j := 0;
    assert xml == head + MarkupSeq(DetPagNodes(gs)[..j], 3, fmt);
    while j < |gs|
      invariant 0 <= j <= |gs|
      invariant xml == head + MarkupSeq(DetPagNodes(gs)[..j], 3, fmt)
    {
      var detPag := DetPagNode(gs[j]);
      MarkupSeqSnoc(head, DetPagNodes(gs)[..j], detPag, 3, fmt);
      TakeSnoc(DetPagNodes(gs), j);
      xml := xml + Markup(detPag, 3, fmt);
      j := j + 1;
    }
    assert DetPagNodes(gs)[..j] == DetPagNodes(gs);
    xml := xml + Indent(2) + CloseTag("pag") + "\n";
    ElemPieces(xml0, Elem("pag", [], DetPagNodes(gs)), 2, fmt);
  }

  lemma IndexAfter<T>(a: seq<T>, b: seq<T>, k: nat)
    requires k < |b|
    ensures (a + b)[|a| + k] == b[k]
  {
  }

  lemma IndexMiddle<T>(a: seq<T>, b: seq<T>, c: seq<T>, k: nat)
    requires k < |b|
    ensures (a + b + c)[|a| + k] == b[k]
  {
  }

  lemma Regroup<T>(a: seq<T>, d: seq<T>, t: seq<T>, x: seq<T>, r: seq<T>)
    ensures a + d + (t + x + r) == a + d + t + x + r
  {
  }

  lemma LeadingTags(dados: Request, agora: Instant, chave: string)
    ensures Tags(LeadingBlocks(dados, agora, chave)) == ["ide", "emit", "dest"]
  {
  }

  lemma TrailingTags(dados: Request)
    ensures Tags(TrailingBlocks(dados))
         == ["total", "transp", "pag"] + (if Present(dados.infCpl) then ["infAdic"] else []) + ["infRespTec"]
  {
    var x := InfAdicNodes(dados.infCpl);
    var t3 := [TotalNode(TotalsOf(dados.produtos)), TranspNode(dados.transporte), Elem("pag", [], DetPagNodes(dados.pagamentos))];
    TagsAppend(t3 + x, [RespTecNode]);
    TagsAppend(t3, x);
    assert Tags(t3) == ["total", "transp", "pag"];
    assert Tags(x) == if Present(dados.infCpl) then ["infAdic"] else [];
  }

  /**
   * The blocks come in the layout's order: identification, issuer, recipient, one `det`
   * per product, totals, transport, payments, `infAdic` only when notes are given, and
   * the technical contact last.
   */
  lemma BlockOrder(dados: Request, agora: Instant, chave: string)
    ensures Tags(Blocks(dados, agora, chave))
         == ["ide", "emit", "dest"] + seq(|dados.produtos|, _ => "det") + ["total", "transp", "pag"]
            + (if Present(dados.infCpl) then ["infAdic"] else []) + ["infRespTec"]
  {
    var lead, dets, trail := LeadingBlocks(dados, agora, chave), DetNodes(dados.produtos), TrailingBlocks(dados);
    TagsAppend(lead + dets, trail);
    TagsAppend(lead, dets);
    LeadingTags(dados, agora, chave);
    TrailingTags(dados);
    assert Tags(dets) == seq(|dados.produtos|, _ => "det");
    Regroup(["ide", "emit", "dest"], seq(|dados.produtos|, _ => "det"), ["total", "transp", "pag"],
            if Present(dados.infCpl) then ["infAdic"] else [], ["infRespTec"]);
  }

  /** Item `k` (from 0) is the `det` of product `k`, and its `nItem` attribute reads back as `k + 1`. */
  lemma ItemsNumbered(dados: Request, agora: Instant, chave: string, k: nat)
    requires k < |dados.produtos|
    ensures var b := Blocks(dados, agora, chave)[3 + k];
      && b == DetNode(dados.produtos[k], k + 1)
      && b.attrs[0].name == "nItem" && AllDigits(b.attrs[0].value) && DigitsValue(b.attrs[0].value) == k + 1
  {
    DecimalStringValue(k + 1);
    var lead, dets, trail := LeadingBlocks(dados, agora, chave), DetNodes(dados.produtos), TrailingBlocks(dados);
    IndexMiddle(lead, dets, trail, k);
  }

  /** The payments' group is the third block after the items and lists each payment in order. */
  lemma PaymentsInOrder(dados: Request, agora: Instant, chave: string, k: nat)
    requires k < |dados.pagamentos|
    ensures var pag := Blocks(dados, agora, chave)[|dados.produtos| + 5];
      && pag.Elem? && pag.tag == "pag" && |pag.kids| == |dados.pagamentos|
      && pag.kids[k] == DetPagNode(dados.pagamentos[k])
  {
    var lead, dets, trail := LeadingBlocks(dados, agora, chave), DetNodes(dados.produtos), TrailingBlocks(dados);
    assert Blocks(dados, agora, chave)[|dados.produtos| + 5] == trail[2] by {
      IndexAfter(lead + dets, trail, 2);
    }
    assert trail[2] == Elem("pag", [], DetPagNodes(dados.pagamentos));
  }

  /** A payment writes its indicator (`0` when not given), its kind and its amount. */
  lemma PaymentFields(g: Payment)
    ensures LeafText(DetPagNode(g).kids, "indPag") == Some(Plain(if Present(g.indPag) then g.indPag.value else "0"))
    ensures LeafText(DetPagNode(g).kids, "tPag") == Some(Plain(g.tPag))
    ensures LeafText(DetPagNode(g).kids, "vPag") == Some(Money(g.vPag))
  {
    var i := PlainLeaf("indPag", OrDefault(g.indPag, "0"));
    var t := PlainLeaf("tPag", g.tPag);
    assert DetPagNode(g).kids == [i, t] + [Leaf("vPag", Money(g.vPag))];
    HeadLeaves("indPag", i.text, "tPag", t.text, [Leaf("vPag", Money(g.vPag))], "vPag");
  }

  /** `cUF` is the issuer's UF code, `cNF` key characters 35 to 42 and `cDV` key character 43. */
  lemma IdeRepeatsKey(dados: Request, agora: Instant, chave: string)
    requires |chave| == 44
    ensures var ide := IdeNode(dados, agora, chave);
      && ide.kids[0] == PlainLeaf("cUF", UfCode(dados.emitente.endereco.uf))
      && ide.kids[1] == PlainLeaf("cNF", chave[35..43])
      && ide.kids[12] == PlainLeaf("cDV", [chave[43]])
  {
  }

  /**
   * When every field has its width, the identification block repeats the key: `cUF` is
   * the UF code the key starts with, `cNF` the zero-padded random code, which reads back
   * as `cNF`, and `cDV` the key's check digit.
   */
  lemma HeaderCarriesKey(dados: Request, agora: Instant, cNF: RandomCode)
    requires |dados.emitente.cnpj| == 14 && AllDigits(dados.emitente.cnpj) && IsoShaped(agora.iso)
    requires dados.serie < 1000 && dados.numero < 1000000000
    ensures var chave := AccessKeyOf(dados, agora.iso, cNF);
      var ide := IdeNode(dados, agora, chave);
      && |chave| == 44
      && ide.kids[0] == PlainLeaf("cUF", chave[..2])
      && ide.kids[1] == PlainLeaf("cNF", PadStart(DecimalString(cNF), 8))
      && DigitsValue(PadStart(DecimalString(cNF), 8)) == cNF
      && ide.kids[12] == PlainLeaf("cDV", [chave[43]])
      && ValidKey(chave)
  {
    var chave := AccessKeyOf(dados, agora.iso, cNF);
    GeneratedKeyIsValid(dados, agora.iso, cNF);
    KeyFields(dados, agora.iso, cNF);
    KeyPrefixFields(dados, agora.iso, cNF);
    IdeRepeatsKey(dados, agora, chave);
  }

  /**
   * The totals block writes the sums over all products, a missing tax value counting
   * as 0, and its `vNF` repeats the products' total `vProd`.
   */
  lemma TotalsBlock(ps: seq<Product>)
    ensures var tot := TotalNode(TotalsOf(ps)).kids[0];
      && tot.tag == "ICMSTot" && |tot.kids| == 19
      && tot.kids[0] == Leaf("vBC", Money(Sum(ps, IcmsBase)))
      && tot.kids[1] == Leaf("vICMS", Money(Sum(ps, IcmsValue)))
      && tot.kids[8] == Leaf("vProd", Money(Sum(ps, ProductValue)))
      && tot.kids[15] == Leaf("vPIS", Money(Sum(ps, PisValue)))
      && tot.kids[16] == Leaf("vCOFINS", Money(Sum(ps, CofinsValue)))
      && tot.kids[18] == Leaf("vNF", tot.kids[8].text)
  {
    TotalsFields(TotalsOf(ps));
  }

  lemma TotalsFields(t: Totals)
    ensures var tot := TotalNode(t).kids[0];
      && tot.tag == "ICMSTot" && |tot.kids| == 19
      && tot.kids[0] == Leaf("vBC", Money(t.vBC)) && tot.kids[1] == Leaf("vICMS", Money(t.vICMS))
      && tot.kids[8] == Leaf("vProd", Money(t.vProd)) && tot.kids[15] == Leaf("vPIS", Money(t.vPIS))
      && tot.kids[16] == Leaf("vCOFINS", Money(t.vCOFINS)) && tot.kids[18] == Leaf("vNF", Money(t.vProd))
  {
  }

  /** Products with no tax values given add nothing to the tax totals. */
  lemma {:induction false} UntaxedAddNothing(ps: seq<Product>)
    requires forall k :: 0 <= k < |ps| ==> !NonZero(ps[k].imposto.pis.vPIS) && !NonZero(ps[k].imposto.cofins.vCOFINS)
    ensures Sum(ps, PisValue) == 0 && Sum(ps, CofinsValue) == 0
  {
    if |ps| > 0 {
      UntaxedAddNothing(ps[..|ps| - 1]);
    }
  }

  /**
   * The taxable-unit fields fall back to the commercial ones: with none of them given,
   * `cEANTrib`, `uTrib`, `qTrib` and `vUnTrib` repeat `cEAN`, `uCom`, `qCom` and `vUnCom`;
   * a missing `cEAN` is written `SEM GTIN` and a missing `indTot` is `1`.
   */
  lemma TaxableUnitsDefault(p: Product)
    requires !Present(p.cEANTrib) && !Present(p.uTrib) && !NonZero(p.qTrib) && !NonZero(p.vUnTrib)
    ensures var k := ProdNode(p).kids;
      && k[9] == Leaf("cEANTrib", k[1].text) && k[10] == Leaf("uTrib", k[5].text)
      && k[11] == Leaf("qTrib", k[6].text) && k[12] == Leaf("vUnTrib", k[7].text)
      && (!Present(p.cEAN) ==> k[1] == PlainLeaf("cEAN", "SEM GTIN"))
      && (!Present(p.indTot) ==> k[13] == PlainLeaf("indTot", "1"))
  {
  }

  /**
   * `transporte?.modFrete || '9'`: the `transp` group always carries a freight mode, which is
   * the requested one when given and 9 (no transport) when the transport or its mode is absent.
   */
  lemma FreightDefault(t: Option<Transport>)
    ensures var m := LeafText(TranspNode(t).kids, "modFrete");
      && m.Some? && m.value.Plain?
      && (t.Some? && t.value.modFrete != "" ==> m.value == Plain(t.value.modFrete))
      && (t.None? || t.value.modFrete == "" ==> m.value == Plain("9"))
      && m.value.s != ""
  {
  }

  lemma AddressFieldsHaveNoPhone(a: Address)
    ensures LeafText(AddressFields(a), "fone").None?
  {
    var head := [PlainLeaf("xLgr", a.xLgr), PlainLeaf("nro", a.nro)];
    var cpl := OptionalText("xCpl", a.xCpl);
    var place := [PlainLeaf("xBairro", a.xBairro), PlainLeaf("cMun", a.cMun), PlainLeaf("xMun", a.xMun)];
    var uf, cep := [PlainLeaf("UF", a.uf)], [PlainLeaf("CEP", a.cep)];
    var pais, nome := [PlainLeaf("cPais", OrDefault(a.cPais, BrazilCode))], [PlainLeaf("xPais", OrDefault(a.xPais, BrazilName))];
    var region := uf + cep + pais + nome;
    assert AddressFields(a) == head + cpl + place + region;
    FourRuns(head, cpl, place, region, "fone");
    assert LeafText(head, "fone").None?;
    assert LeafText(place, "fone").None?;
    assert LeafText(region, "fone").None? by {
      FourRuns(uf, cep, pais, nome, "fone");
      SingleLeaf("UF", Plain(a.uf), "fone");
      SingleLeaf("CEP", Plain(a.cep), "fone");
      SingleLeaf("cPais", Plain(OrDefault(a.cPais, BrazilCode)), "fone");
      SingleLeaf("xPais", Plain(OrDefault(a.xPais, BrazilName)), "fone");
    }
  }

  lemma SingleLeaf(t: string, x: Text, tag: string)
    ensures LeafText([Leaf(t, x)], tag) == if t == tag then Some(x) else None
  {
    assert [Leaf(t, x)][1..] == [];
  }

  /** The issuer's address carries the phone when given; the recipient's never does. */
  lemma AddressPhone(tag: string, a: Address, withPhone: bool)
    ensures LeafText(AddressNode(tag, a, withPhone).kids, "fone")
         == if withPhone && Present(a.fone) then Some(Plain(a.fone.value)) else None
  {
    LeafTextAppend(AddressFields(a), if withPhone then OptionalText("fone", a.fone) else [], "fone");
    AddressFieldsHaveNoPhone(a);
  }

  /**
   * The key depends on the emission instant, not on `dataEmissao`: a request that differs
   * only in its declared issue date gets the same key.
   */
  lemma KeyIgnoresIssueDate(dados: Request, iso: string, cNF: RandomCode, d: Option<string>)
    ensures AccessKeyOf(dados.(dataEmissao := d), iso, cNF) == AccessKeyOf(dados, iso, cNF)
  {
    var other := dados.(dataEmissao := d);
    assert other.emitente == dados.emitente && other.serie == dados.serie && other.numero == dados.numero;
    assert KeyPrefix(other, iso, cNF) == KeyPrefix(dados, iso, cNF);
  }

  /** `dhEmi` shows the declared issue date when given, the emission instant otherwise. */
  lemma IssueDateShown(dados: Request, agora: Instant, chave: string)
    ensures IdeNode(dados, agora, chave).kids[6]
         == PlainLeaf("dhEmi", if Present(dados.dataEmissao) then dados.dataEmissao.value else agora.sefaz)
  {
  }
}

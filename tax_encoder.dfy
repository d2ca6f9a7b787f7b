/**
 * The `imposto` block of one item: exactly one ICMS group chosen by the tax regime
 * (the simplified regime when a CSOSN is given, the normal regime otherwise), and a
 * PIS and a COFINS group, each either "other operations" (`Outr`) or "rate"
 * (`Aliq`). A numeric field counts as given only when it is present and not zero,
 * as in the JavaScript test `if (x)`.
 */
module TaxEncoder {
  import opened Wrappers
  import opened JsText
  import opened Invoice
  import opened Xml

  /** A monetary or percentage field: `x.toFixed(2)`. */
  function Money(v: Num): Text { Fixed(v, 2) }

  /** `if (o) <tag>o.toFixed(2)</tag>`. */
  function OptionalMoney(tag: string, o: Option<Num>): (r: seq<Node>)
    ensures LeafText(r, tag) == if NonZero(o) then Some(Money(o.value)) else None
    ensures forall t :: t != tag ==> LeafText(r, t).None?
  {
    if NonZero(o) then [Leaf(tag, Money(o.value))] else []
  }

  /** The tag of the ICMS group: `ICMSSN{CSOSN}` or `ICMS{CST}` (`ICMSundefined` when CST is missing). */
  function IcmsGroupTag(icms: Icms): string {
    if Present(icms.csosn) then "ICMSSN" + icms.csosn.value else "ICMS" + TemplateText(icms.cst)
  }

  /** The optional fields of the normal-regime group, after `orig` and `CST`. */
  function NormalTail(icms: Icms): seq<Node> {
    (if Present(icms.modBC) then [Leaf("modBC", Plain(icms.modBC.value))] else [])
    + OptionalMoney("vBC", icms.vBC)
    + OptionalMoney("pICMS", icms.pICMS)
    + OptionalMoney("vICMS", icms.vICMS)
  }

  function IcmsGroup(icms: Icms): Node {
    if Present(icms.csosn) then
      Elem(IcmsGroupTag(icms), [],
        [Leaf("orig", Plain(icms.orig)), Leaf("CSOSN", Plain(icms.csosn.value))]
        + OptionalMoney("pCredSN", icms.pCredSN)
        + OptionalMoney("vCredICMSSN", icms.vCredICMSSN))
    else
      Elem(IcmsGroupTag(icms), [],
        [Leaf("orig", Plain(icms.orig)), Leaf("CST", Plain(TemplateText(icms.cst)))] + NormalTail(icms))
  }

  /** `<ICMS>` holding exactly one group. */
  function IcmsNode(icms: Icms): (n: Node)
    ensures n.Elem? && n.tag == "ICMS" && |n.kids| == 1 && n.kids[0].Elem?
  {
    Elem("ICMS", [], [IcmsGroup(icms)])
  }

  /** The PIS and COFINS rule: "other operations" when the CST is 99 or no base is given. */
  predicate IsOutr(cst: string, vBC: Option<Num>) { cst == "99" || !NonZero(vBC) }

  /**
   * A PIS or COFINS block named `group`: CST, then the base and the rate when given,
   * then the value, which the `Outr` form always writes (0 when missing) and the
   * `Aliq` form only when given.
   */
  function Contribution(group: string, rateTag: string, valueTag: string,
                        cst: string, vBC: Option<Num>, rate: Option<Num>, value: Option<Num>): Node
  {
    if IsOutr(cst, vBC) then
      Elem(group, [], [Elem(group + "Outr", [],
        [Leaf("CST", Plain(cst))] + OptionalMoney("vBC", vBC) + OptionalMoney(rateTag, rate)
        + [Leaf(valueTag, Money(OrZero(value)))])])
    else
      Elem(group, [], [Elem(group + "Aliq", [],
        [Leaf("CST", Plain(cst))] + OptionalMoney("vBC", vBC) + OptionalMoney(rateTag, rate)
        + OptionalMoney(valueTag, value))])
  }

  function PisNode(pis: Pis): Node {
    Contribution("PIS", "pPIS", "vPIS", pis.cst, pis.vBC, pis.pPIS, pis.vPIS)
  }

  function CofinsNode(cofins: Cofins): Node {
    Contribution("COFINS", "pCOFINS", "vCOFINS", cofins.cst, cofins.vBC, cofins.pCOFINS, cofins.vCOFINS)
  }

  /** `<imposto>`: ICMS, PIS, COFINS, each from its own part of the taxes only. */
  function TaxesNode(t: Taxes): Node {
    Elem("imposto", [], [IcmsNode(t.icms), PisNode(t.pis), CofinsNode(t.cofins)])
  }

  /** A money field as the source writes it: its two-decimal text when given, nothing otherwise. */
  function GivenMoney(o: Option<Num>): Option<Text> {
    if NonZero(o) then Some(Money(o.value)) else None
  }

  /**
   * Which simple elements the ICMS group holds, and with what text, written as a table
   * from field name to content instead of as a list.
   */
  function IcmsField(icms: Icms, tag: string): Option<Text> {
    if tag == "orig" then Some(Plain(icms.orig))
    else if Present(icms.csosn) then
      if tag == "CSOSN" then Some(Plain(icms.csosn.value))
      else if tag == "pCredSN" then GivenMoney(icms.pCredSN)
      else if tag == "vCredICMSSN" then GivenMoney(icms.vCredICMSSN)
      else None
    else
      if tag == "CST" then Some(Plain(TemplateText(icms.cst)))
      else if tag == "modBC" then (if Present(icms.modBC) then Some(Plain(icms.modBC.value)) else None)
      else if tag == "vBC" then GivenMoney(icms.vBC)
      else if tag == "pICMS" then GivenMoney(icms.pICMS)
      else if tag == "vICMS" then GivenMoney(icms.vICMS)
      else None
  }

  /** Two leading simple elements, then the rest. */
  lemma HeadLeaves(t1: string, x1: Text, t2: string, x2: Text, rest: seq<Node>, tag: string)
    ensures LeafText([Leaf(t1, x1), Leaf(t2, x2)] + rest, tag)
         == if tag == t1 then Some(x1) else if tag == t2 then Some(x2) else LeafText(rest, tag)
  {
    var s := [Leaf(t1, x1), Leaf(t2, x2)] + rest;
    assert s[1..][1..] == rest;
  }

  /**
   * The ICMS block holds exactly one group: `ICMSSN{CSOSN}` when a CSOSN is given, with
   * the CSOSN and no CST; `ICMS{CST}` otherwise, with the CST and no CSOSN. Each optional
   * field appears only when given, so a zero is left out exactly like a missing value.
   */
  lemma IcmsFields(icms: Icms, tag: string)
    ensures IcmsNode(icms).kids[0].tag == IcmsGroupTag(icms)
    ensures LeafText(IcmsNode(icms).kids[0].kids, tag) == IcmsField(icms, tag)
  {
    if Present(icms.csosn) {
      SimplifiedRegimeFields(icms, tag);
    } else {
      NormalRegimeFields(icms, tag);
    }
  }

  lemma SimplifiedRegimeFields(icms: Icms, tag: string)
    requires Present(icms.csosn)
    ensures LeafText(IcmsGroup(icms).kids, tag) == IcmsField(icms, tag)
  {
    var a := OptionalMoney("pCredSN", icms.pCredSN);
    var b := OptionalMoney("vCredICMSSN", icms.vCredICMSSN);
    assert IcmsGroup(icms).kids == [Leaf("orig", Plain(icms.orig)), Leaf("CSOSN", Plain(icms.csosn.value))] + (a + b);
    HeadLeaves("orig", Plain(icms.orig), "CSOSN", Plain(icms.csosn.value), a + b, tag);
    LeafTextAppend(a, b, tag);
  }

  /** The first simple child named `tag` among four runs written one after the other. */
  lemma FourRuns(m: seq<Node>, b: seq<Node>, c: seq<Node>, d: seq<Node>, tag: string)
    ensures LeafText(m + b + c + d, tag)
         == if LeafText(m, tag).Some? then LeafText(m, tag)
            else if LeafText(b, tag).Some? then LeafText(b, tag)
            else if LeafText(c, tag).Some? then LeafText(c, tag)
            else LeafText(d, tag)
  {
    LeafTextAppend(m + b + c, d, tag);
    LeafTextAppend(m + b, c, tag);
    LeafTextAppend(m, b, tag);
  }

  lemma NormalTailFields(icms: Icms, tag: string)
    ensures LeafText(NormalTail(icms), tag)
         == if tag == "modBC" then (if Present(icms.modBC) then Some(Plain(icms.modBC.value)) else None)
            else if tag == "vBC" then GivenMoney(icms.vBC)
            else if tag == "pICMS" then GivenMoney(icms.pICMS)
            else if tag == "vICMS" then GivenMoney(icms.vICMS)
            else None
  {
    var m: seq<Node> := if Present(icms.modBC) then [Leaf("modBC", Plain(icms.modBC.value))] else [];
    assert LeafText(m, tag) == if tag == "modBC" && Present(icms.modBC) then Some(Plain(icms.modBC.value)) else None;
    FourRuns(m, OptionalMoney("vBC", icms.vBC), OptionalMoney("pICMS", icms.pICMS), OptionalMoney("vICMS", icms.vICMS), tag);
  }

  lemma NormalRegimeFields(icms: Icms, tag: string)
    requires !Present(icms.csosn)
    ensures LeafText(IcmsGroup(icms).kids, tag) == IcmsField(icms, tag)
  {
    var o, t := Plain(icms.orig), Plain(TemplateText(icms.cst));
    HeadLeaves("orig", o, "CST", t, NormalTail(icms), tag);
    if tag != "orig" && tag != "CST" {
      NormalTailFields(icms, tag);
    }
  }

  /** Which simple elements a PIS or COFINS group holds, as a table from field name to content. */
  function ContributionField(rateTag: string, valueTag: string, cst: string,
                             vBC: Option<Num>, rate: Option<Num>, value: Option<Num>, tag: string): Option<Text>
  {
    if tag == "CST" then Some(Plain(cst))
    else if tag == "vBC" then GivenMoney(vBC)
    else if tag == rateTag then GivenMoney(rate)
    else if tag == valueTag then
      (if IsOutr(cst, vBC) then Some(Money(OrZero(value))) else GivenMoney(value))
    else None
  }

  /**
   * A PIS or COFINS block holds one group, `Outr` exactly when the CST is 99 or no base
   * is given and `Aliq` otherwise. The base and rate appear only when given; the value
   * is always written by `Outr` (0 when missing) and only when given by `Aliq`.
   */
  lemma {:induction false} ContributionFields(group: string, rateTag: string, valueTag: string,
                            cst: string, vBC: Option<Num>, rate: Option<Num>, value: Option<Num>, tag: string)
    requires rateTag != "CST" && rateTag != "vBC" && valueTag != "CST" && valueTag != "vBC" && rateTag != valueTag
    ensures var n := Contribution(group, rateTag, valueTag, cst, vBC, rate, value);
      && n.tag == group && |n.kids| == 1
      && n.kids[0].tag == group + (if IsOutr(cst, vBC) then "Outr" else "Aliq")
      && LeafText(n.kids[0].kids, tag) == ContributionField(rateTag, valueTag, cst, vBC, rate, value, tag)
  {
    var n := Contribution(group, rateTag, valueTag, cst, vBC, rate, value);
    var h: seq<Node> := [Leaf("CST", Plain(cst))];
    var b := OptionalMoney("vBC", vBC);
    var r := OptionalMoney(rateTag, rate);
    var v: seq<Node> := if IsOutr(cst, vBC) then [Leaf(valueTag, Money(OrZero(value)))] else OptionalMoney(valueTag, value);
    assert n.kids[0].kids == h + b + r + v;
    assert LeafText(h + b + r + v, tag) == ContributionField(rateTag, valueTag, cst, vBC, rate, value, tag) by {
      FourRuns(h, b, r, v, tag);
    }
  }

  lemma PisFields(pis: Pis, tag: string)
    ensures PisNode(pis).kids[0].tag == if IsOutr(pis.cst, pis.vBC) then "PISOutr" else "PISAliq"
    ensures LeafText(PisNode(pis).kids[0].kids, tag)
         == ContributionField("pPIS", "vPIS", pis.cst, pis.vBC, pis.pPIS, pis.vPIS, tag)
  {
    ContributionFields("PIS", "pPIS", "vPIS", pis.cst, pis.vBC, pis.pPIS, pis.vPIS, tag);
  }

  lemma CofinsFields(cofins: Cofins, tag: string)
    ensures CofinsNode(cofins).kids[0].tag == if IsOutr(cofins.cst, cofins.vBC) then "COFINSOutr" else "COFINSAliq"
    ensures LeafText(CofinsNode(cofins).kids[0].kids, tag)
         == ContributionField("pCOFINS", "vCOFINS", cofins.cst, cofins.vBC, cofins.pCOFINS, cofins.vCOFINS, tag)
  {
    ContributionFields("COFINS", "pCOFINS", "vCOFINS", cofins.cst, cofins.vBC, cofins.pCOFINS, cofins.vCOFINS, tag);
  }
}

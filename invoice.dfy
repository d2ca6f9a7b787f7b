/**
 * The invoice request as the service receives it: issuer, recipient, products
 * with their three taxes, payments, transport and notes. Optional fields of the
 * request are `Option`s; amounts, rates and quantities are whole numbers in one
 * fixed decimal scale (the service only sums them and hands them to `toFixed`).
 */
module Invoice {
  import opened Wrappers

  /** An amount, rate or quantity, as a whole number of units of a fixed decimal scale. */
  type Num = int

  /**
   * A request's series or number: a non-negative whole number below 10^21, the range in
   * which `String(n)` writes plain decimal digits rather than exponent notation.
   */
  type WholeNumber = n: nat | n < 1_000_000_000_000_000_000_000

  /** `Math.floor(Math.random() * 100000000)`: the eight-digit random code of the key. */
  type RandomCode = n: nat | n < 100_000_000

  datatype Address = Address(
    xLgr: string,
    nro: string,
    xCpl: Option<string>,
    xBairro: string,
    cMun: string,
    xMun: string,
    uf: string,
    cep: string,
    cPais: Option<string>,
    xPais: Option<string>,
    fone: Option<string>)

  datatype Issuer = Issuer(
    cnpj: string,
    xNome: string,
    xFant: Option<string>,
    endereco: Address,
    ie: string,
    crt: string)

  datatype Recipient = Recipient(
    cnpj: Option<string>,
    cpf: Option<string>,
    xNome: string,
    endereco: Address,
    indIEDest: string,
    ie: Option<string>,
    email: Option<string>)

  /** ICMS: a normal-regime code `cst` or a simplified-regime code `csosn`, with its fields. */
  datatype Icms = Icms(
    orig: string,
    cst: Option<string>,
    csosn: Option<string>,
    modBC: Option<string>,
    vBC: Option<Num>,
    pICMS: Option<Num>,
    vICMS: Option<Num>,
    pCredSN: Option<Num>,
    vCredICMSSN: Option<Num>)

  datatype Pis = Pis(cst: string, vBC: Option<Num>, pPIS: Option<Num>, vPIS: Option<Num>)

  datatype Cofins = Cofins(cst: string, vBC: Option<Num>, pCOFINS: Option<Num>, vCOFINS: Option<Num>)

  datatype Taxes = Taxes(icms: Icms, pis: Pis, cofins: Cofins)

  datatype Product = Product(
    cProd: string,
    cEAN: Option<string>,
    xProd: string,
    ncm: string,
    cfop: string,
    uCom: string,
    qCom: Num,
    vUnCom: Num,
    vProd: Num,
    cEANTrib: Option<string>,
    uTrib: Option<string>,
    qTrib: Option<Num>,
    vUnTrib: Option<Num>,
    indTot: Option<string>,
    imposto: Taxes)

  datatype Payment = Payment(indPag: Option<string>, tPag: string, vPag: Num)

  datatype Transport = Transport(modFrete: string)

  datatype Request = Request(
    naturezaOperacao: string,
    serie: WholeNumber,
    numero: WholeNumber,
    dataEmissao: Option<string>,
    tpNF: string,
    idDest: string,
    tpAmb: Option<string>,
    finNFe: string,
    indFinal: string,
    indPres: string,
    emitente: Issuer,
    destinatario: Recipient,
    produtos: seq<Product>,
    transporte: Option<Transport>,
    pagamentos: seq<Payment>,
    infCpl: Option<string>)

  /**
   * The emission instant `agora` (two minutes before the clock reading), as the two
   * texts the service derives from it: `toISOString()` and the UTC-3 SEFAZ format.
   */
  datatype Instant = Instant(iso: string, sefaz: string)
}

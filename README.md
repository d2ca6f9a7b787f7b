# NF-e test service: access key, document assembly and gateway reply

A Dafny model of the logic in the NestJS NF-e (Brazilian electronic invoice) test
module. The module has two parts with real logic. The rest of the module hands work
to a native fiscal library.

- **The service** (`nfe-teste.service.ts`):
  - `obterCodigoUF` looks up the IBGE state code of a UF, falling back to `35`.
  - `gerarChaveAcesso` builds the 44-digit access key: a 43-digit prefix of fixed-width
    fields, then a modulo-11 check digit found by a right-to-left loop with weights
    cycling 2..9.
  - `jsonParaXML` writes the layout 4.00 document with repeated `xml +=` appends, in a
    fixed block order. It includes one `det` per product, with its ICMS, PIS and
    COFINS groups, and the totals summed over the products.
  - `consultar` validates an access key before anything else runs.
- **The controller** (`nfe-teste.controller.ts`):
  - `enviar` runs a line-by-line parser over the library's INI-like reply, which
    updates the current section and the parsed object in place.
  - It then decides the verdict: `Envio.CStat`, or else the top-level `CStat`, must
    be 100, 101 or 150. A rejection message carries `XMotivo`.
  - `criarNFe` and `criarAssinarValidar` extract the key with `Id="NFe(\d{44})"`.

The model is split into these modules:

- `Wrappers`: `Option` and `Result`.
- `JsText`: the JavaScript string and value behaviour the code relies on:
  - `trim` with JavaScript's white-space set;
  - `String(n)` and `padStart`, which never truncates;
  - `substring`, including swapped bounds;
  - `replace(/\D/g, '')`;
  - truthiness of optional text and numbers;
  - `${undefined}` in templates.
- `Invoice`: the request datatypes, and the instant taken as a parameter.
- `Xml`: the document as a tree of elements and its exact text rendering. This covers
  indentation, line feeds and the closing tag without a final line feed. Decimal
  numbers are rendered by a formatter parameter that stands for `toFixed`.
- `AccessKey`: the UF table, the key prefix, the check-digit loop as a method, and the
  key validation of `consultar`.
- `TaxEncoder`: the ICMS, PIS and COFINS groups of one item.
- `Assembler`: the totals, every block, `DocumentOf`, and the method `JsonToXml`. It
  appends text block by block, with loops over products and payments. It is proved to
  produce exactly the rendering of `DocumentOf`.
- `ReplyParser`: line splitting on `\n` or `\r\n`, the parser state, the step function
  for one line, and the loop `ParseReply` proved against that fold. It also has
  reference definitions (`Pairs`) of what a section or the top level ends up holding.
- `Controller`: JavaScript values read out of the parsed object, with `||` and
  template interpolation, then the verdict, and the key-extraction scan.

Amounts are integers at a fixed scale. The clock is a parameter, `Instant(iso, sefaz)`,
for `toISOString()` and `formatarDataSefaz`. `Math.random` is the parameter `cNF`.

The model follows the code, including where it does not fail:

- There is no error for an out-of-width field: `padStart` does not truncate, so the key
  simply grows longer (`AccessKey.WideSerieLengthensKey`).
- There is no error for a missing regime code: the group is then named `ICMSundefined`.
- There is no `Msg` fallback for the rejection reason.
- A rejection with no reason reads `Rejeição: undefined`.

## Model

| member | source | states |
|---|---|---|
| JsText.DecimalStringValue | src/nfe-teste/nfe-teste.service.ts:320-321 | `String(n)` is a digit string that reads back as `n` |
| JsText.PadStartValue | src/nfe-teste/nfe-teste.service.ts:320-323 | left-padding with zeros keeps a digit string's value |
| JsText.PadStart | src/nfe-teste/nfe-teste.service.ts:320-323 | `padStart` reaches the width only when the text is shorter, keeps the text as its suffix and adds only zeros in front, never truncating |
| JsText.Trim | src/nfe-teste/nfe-teste.controller.ts:209-210 | the trimmed line is empty exactly when the line is all white space, and otherwise starts and ends with a non-space |
| JsText.TrimCutsBlanks | src/nfe-teste/nfe-teste.controller.ts:209-217 | `trim` keeps exactly the text after the whole blank run the line starts with, up to a blank suffix; with `Trim`'s non-blank ends, the suffix is the whole trailing blank run |
| JsText.OnlyDigits | src/nfe-teste/nfe-teste.service.ts:220 | stripping non-digits leaves only digits, leaves a digit string unchanged, and turns text without digits into the empty text |
| JsText.RemoveFirst | src/nfe-teste/nfe-teste.service.ts:317 | `replace('-', '')` removes exactly the first occurrence: the text before it, which holds none, and the text after it are kept; without one the text is unchanged |
| JsText.IndexText | src/nfe-teste/nfe-teste.service.ts:394 | `${s[i]}` is the character at `i`, or `undefined` past the end |
| JsText.Substring | src/nfe-teste/nfe-teste.service.ts:317 | `substring` returns the slice between its bounds, swapping them when given in reverse order |
| AccessKey.UfCode | src/nfe-teste/nfe-teste.service.ts:301-310 | a listed UF gets its table code, any other text gets `35`, and every code is two digits |
| AccessKey.YearMonth | src/nfe-teste/nfe-teste.service.ts:317 | for an ISO instant, `aamm` is the year's last two digits followed by the month |
| AccessKey.KeyPrefix | src/nfe-teste/nfe-teste.service.ts:316-325 | the definition of the 43 characters before the check digit: `cUF`, `aamm`, CNPJ, `55`, series, number, `1`, `cNF`; its layout is proved in `KeyPrefixLayout` and `KeyPrefixFields` |
| AccessKey.WeightedSum | src/nfe-teste/nfe-teste.service.ts:327-333 | the definition of the loop's sum: each digit times 2..9 by its place from the right; `CheckDigit` is proved to return the modulo-11 digit of this sum |
| AccessKey.Mod11 | src/nfe-teste/nfe-teste.service.ts:334-335 | the check digit is a single digit; it is 0 when the remainder is below 2, and otherwise it completes the sum to a multiple of 11 |
| AccessKey.CheckDigitText | src/nfe-teste/nfe-teste.service.ts:328-337 | over a digit prefix, the appended check digit is one digit character |
| AccessKey.CheckDigit | src/nfe-teste/nfe-teste.service.ts:327-337 | the right-to-left loop with weights 2..9 returns the check digit of the weighted sum |
| AccessKey.DigitStep | src/nfe-teste/nfe-teste.service.ts:330-333 | one iteration adds the digit times the weight of its place counted from the right |
| AccessKey.AccessKeyOf | src/nfe-teste/nfe-teste.service.ts:315-338 | the definition of `gerarChaveAcesso`'s result: the prefix followed by its check digit, `NaN` when the prefix has a non-digit; `GenerateKey` computes it and `GeneratedKeyIsValid` proves it valid |
| AccessKey.GenerateKey | src/nfe-teste/nfe-teste.service.ts:315-338 | `gerarChaveAcesso` returns the prefix with its check digit appended |
| AccessKey.KeyHeadLayout | src/nfe-teste/nfe-teste.service.ts:316-322 | with every field at its width, the fields before `cNF` take 35 characters and `aamm` takes 4 |
| AccessKey.KeyPrefixLayout | src/nfe-teste/nfe-teste.service.ts:316-325 | with every field at its width, the prefix is 43 characters and its last 8 are the padded `cNF` |
| AccessKey.KeyHeadDigits | src/nfe-teste/nfe-teste.service.ts:316-322 | with a digit CNPJ, the fields before `cNF` are all digits |
| AccessKey.KeyPrefixFields | src/nfe-teste/nfe-teste.service.ts:320-325 | series, number and `cNF` are zero-padded digit fields that read back as the request's values |
| AccessKey.WideSerieLengthensKey | src/nfe-teste/nfe-teste.service.ts:320-325 | a series from 1000 up (below 10^21, where `String` still writes plain digits) lengthens the prefix past 43 and the key past 44 instead of failing |
| AccessKey.KeyFields | src/nfe-teste/nfe-teste.service.ts:316-325 | the key is 44 characters long, starts with the UF code and holds the padded `cNF` at positions 35 to 42 |
| AccessKey.KeyRandomCodeField | src/nfe-teste/nfe-teste.service.ts:323-325 | the padded `cNF` sits at key positions 35 to 42 |
| AccessKey.KeyUfField | src/nfe-teste/nfe-teste.service.ts:316-325 | for every request, the key starts with the UF code of the issuer's state |
| AccessKey.GeneratedKeyIsValid | src/nfe-teste/nfe-teste.service.ts:315-338 | with every field at its width, the key is 44 digits, its first 43 are the prefix, and its last is the modulo-11 digit of the first 43 |
| AccessKey.ValidKey | src/nfe-teste/nfe-teste.service.ts:327-337 | the definition of a well-formed key: 44 digits, the last being the modulo-11 digit of the other 43; `CheckedKey` and `GeneratedKeyIsValid` establish it |
| AccessKey.CheckedKey | src/nfe-teste/nfe-teste.service.ts:328-337 | any 43-digit prefix with its check digit appended is a valid key |
| AccessKey.CheckQueryKey | src/nfe-teste/nfe-teste.service.ts:216-223 | a missing or blank key is refused as not given; otherwise the key is accepted exactly when 44 digits remain after stripping non-digits, and a refusal reports how many remained |
| AccessKey.OnlyDigitsAppend | src/nfe-teste/nfe-teste.service.ts:220 | stripping non-digits works piece by piece |
| AccessKey.QueryAccepts | src/nfe-teste/nfe-teste.service.ts:216-223 | a non-blank key with 44 digits is accepted as those digits |
| AccessKey.GeneratedKeyQueryable | src/nfe-teste/nfe-teste.service.ts:216-223 | a 44-digit key is accepted as itself |
| AccessKey.SpaceSeparatedKeyQueryable | src/nfe-teste/nfe-teste.service.ts:216-223 | a key split into groups by spaces is accepted as the plain key |
| AccessKey.SeparatorsDropped | src/nfe-teste/nfe-teste.service.ts:220 | separators without digits inserted into a key are stripped out again |
| AccessKey.SeparatedKeyQueryable | src/nfe-teste/nfe-teste.service.ts:216-223 | a key written with any digit-free separator, spaces included, is accepted as the plain key |
| TaxEncoder.OptionalMoney | src/nfe-teste/nfe-teste.service.ts:486-489 | an amount appears, to two decimals, exactly when it is present and not zero, and no other field appears |
| TaxEncoder.IcmsGroup | src/nfe-teste/nfe-teste.service.ts:473-491 | the definition of the ICMS group; its contents are proved in `IcmsFields`, `SimplifiedRegimeFields` and `NormalRegimeFields` |
| TaxEncoder.IcmsFields | src/nfe-teste/nfe-teste.service.ts:473-491 | exactly one ICMS group: `ICMSSN{CSOSN}` when a CSOSN is given, else `ICMS{CST}`, each field present exactly as the regime's table says |
| TaxEncoder.SimplifiedRegimeFields | src/nfe-teste/nfe-teste.service.ts:473-480 | the simplified group holds `orig` and `CSOSN`, `pCredSN` and `vCredICMSSN` only when non-zero, and nothing else |
| TaxEncoder.NormalRegimeFields | src/nfe-teste/nfe-teste.service.ts:481-491 | the normal group holds `orig` and `CST`, then `modBC`, `vBC`, `pICMS` and `vICMS` only when given, and nothing else |
| TaxEncoder.NormalTailFields | src/nfe-teste/nfe-teste.service.ts:486-489 | the optional normal-regime fields appear only when given |
| TaxEncoder.ContributionFields | src/nfe-teste/nfe-teste.service.ts:497-534 | one group, `Outr` exactly when the CST is 99 or no base is given; `Outr` always writes the value (0 when missing), `Aliq` only when given |
| TaxEncoder.Contribution | src/nfe-teste/nfe-teste.service.ts:497-534 | the definition shared by the PIS and COFINS blocks; its contents are proved in `ContributionFields` |
| TaxEncoder.PisFields | src/nfe-teste/nfe-teste.service.ts:496-514 | `PISOutr` or `PISAliq` by that rule, with the PIS fields as in the table |
| TaxEncoder.CofinsFields | src/nfe-teste/nfe-teste.service.ts:517-535 | `COFINSOutr` or `COFINSAliq` by the same rule, from the COFINS data only |
| Assembler.Sum | src/nfe-teste/nfe-teste.service.ts:370-374 | the definition of `reduce` with `+` from 0 over the products; `SumAppend` proves it adds run by run |
| Assembler.TotalsOf | src/nfe-teste/nfe-teste.service.ts:370-374 | the definition of the five sums, a missing tax value counting as 0; `TotalsAppend` and `UntaxedAddNothing` state how they grow |
| Assembler.SumAppend | src/nfe-teste/nfe-teste.service.ts:370-374 | the sum over two runs of products is the sum of their sums |
| Assembler.TotalsAppend | src/nfe-teste/nfe-teste.service.ts:370-374 | adding a product adds its own amounts to each of the five totals |
| Assembler.UntaxedAddNothing | src/nfe-teste/nfe-teste.service.ts:373-374 | products with no PIS or COFINS value add 0 to those totals |
| Assembler.NumOr | src/nfe-teste/nfe-teste.service.ts:463-464 | `qTrib` and `vUnTrib` fall back to the commercial values when missing or zero |
| Assembler.OptionalText | src/nfe-teste/nfe-teste.service.ts:407 | an optional text element appears exactly when the text is non-empty |
| Assembler.IdeNode | src/nfe-teste/nfe-teste.service.ts:380-401 | the definition of the `ide` block; `IdeRepeatsKey`, `HeaderCarriesKey` and `IssueDateShown` state its fields |
| Assembler.ProdNode | src/nfe-teste/nfe-teste.service.ts:451-466 | the definition of the `prod` block; `TaxableUnitsDefault` and `NumOr` state its defaults |
| Assembler.TotalNode | src/nfe-teste/nfe-teste.service.ts:541-564 | the definition of the `total` block; `TotalsBlock` and `TotalsFields` state its fields |
| Assembler.FreightMode | src/nfe-teste/nfe-teste.service.ts:568 | the definition of `transporte?.modFrete \|\| '9'`; `FreightDefault` states it |
| Assembler.FreightDefault | src/nfe-teste/nfe-teste.service.ts:566-569 | the `transp` block always has a non-empty `modFrete`: the requested mode when given, else 9 |
| Assembler.DocumentOf | src/nfe-teste/nfe-teste.service.ts:361-601 | the definition of the whole document; `JsonToXml` is proved to write its rendering and `BlockOrder` states its block order |
| Assembler.DetNodes | src/nfe-teste/nfe-teste.service.ts:448-450 | one `det` per product |
| Assembler.JsonToXml | src/nfe-teste/nfe-teste.service.ts:361-601 | the text built by the appends is exactly the rendering of the document tree |
| Assembler.WriteLeading | src/nfe-teste/nfe-teste.service.ts:380-445 | identification, issuer and recipient are appended in that order |
| Assembler.WriteItems | src/nfe-teste/nfe-teste.service.ts:448-539 | the products' loop appends one `det` per product, in order, numbered from 1 |
| Assembler.WritePayments | src/nfe-teste/nfe-teste.service.ts:572-580 | the payments' loop appends one `detPag` per payment, in order, inside `pag` |
| Assembler.WriteNotes | src/nfe-teste/nfe-teste.service.ts:583-587 | `infAdic` is appended only when notes are given |
| Assembler.WriteTrailing | src/nfe-teste/nfe-teste.service.ts:541-595 | totals, transport, payments, the optional notes and the technical contact are appended in that order |
| Assembler.LeadingTags | src/nfe-teste/nfe-teste.service.ts:381-445 | the blocks before the products are `ide`, `emit`, `dest` |
| Assembler.TrailingTags | src/nfe-teste/nfe-teste.service.ts:541-595 | the blocks after the products are `total`, `transp`, `pag`, `infAdic` only with notes, and `infRespTec` |
| Assembler.BlockOrder | src/nfe-teste/nfe-teste.service.ts:381-598 | the full block order, with one `det` per product and `infAdic` exactly when notes are given |
| Assembler.ItemsNumbered | src/nfe-teste/nfe-teste.service.ts:448-450 | block 3+k is product k's `det`, whose `nItem` reads back as k+1 |
| Assembler.PaymentsInOrder | src/nfe-teste/nfe-teste.service.ts:572-580 | the `pag` block lists one `detPag` per payment, payment k at position k |
| Assembler.PaymentFields | src/nfe-teste/nfe-teste.service.ts:574-578 | a payment writes `indPag` (default `0`), `tPag` and `vPag` to two decimals |
| Assembler.IdeRepeatsKey | src/nfe-teste/nfe-teste.service.ts:382-394 | `cUF` is the UF code, `cNF` is key characters 35 to 42, and `cDV` is key character 43 |
| Assembler.HeaderCarriesKey | src/nfe-teste/nfe-teste.service.ts:378-394 | with every field at its width, `cUF` is the key's first two digits, `cNF` is the padded random code and reads back as it, and `cDV` is the key's check digit |
| Assembler.TotalsBlock | src/nfe-teste/nfe-teste.service.ts:544-562 | the totals block writes the five sums over all products, a missing tax value counting as 0, and `vNF` repeats `vProd` |
| Assembler.TotalsFields | src/nfe-teste/nfe-teste.service.ts:543-563 | `ICMSTot` has 19 fields, with the five computed amounts at their places and `vNF` equal to `vProd` |
| Assembler.TaxableUnitsDefault | src/nfe-teste/nfe-teste.service.ts:453-465 | without taxable-unit data, `cEANTrib`, `uTrib`, `qTrib` and `vUnTrib` repeat the commercial fields; `cEAN` defaults to `SEM GTIN` and `indTot` to `1` |
| Assembler.AddressFieldsHaveNoPhone | src/nfe-teste/nfe-teste.service.ts:430-440 | the address fields before the phone contain no `fone` |
| Assembler.AddressPhone | src/nfe-teste/nfe-teste.service.ts:408-441 | the issuer's address carries `fone` exactly when given; the recipient's never does |
| Assembler.KeyIgnoresIssueDate | src/nfe-teste/nfe-teste.service.ts:363-367 | the key depends on the emission instant, not on the declared `dataEmissao` |
| Assembler.IssueDateShown | src/nfe-teste/nfe-teste.service.ts:365-388 | `dhEmi` is the declared issue date when given, otherwise the formatted instant |
| ReplyParser.SplitLines | src/nfe-teste/nfe-teste.controller.ts:204 | splitting gives at least one piece, none holding a line feed |
| ReplyParser.SplitThenJoin | src/nfe-teste/nfe-teste.controller.ts:204 | joining the pieces with line feeds gives back the reply |
| ReplyParser.JoinThenSplit | src/nfe-teste/nfe-teste.controller.ts:204 | splitting joined line-feed-free pieces gives back the pieces |
| ReplyParser.NoBreakSplit | src/nfe-teste/nfe-teste.controller.ts:204 | text without a line feed is a single line |
| ReplyParser.SplitAfterPiece | src/nfe-teste/nfe-teste.controller.ts:204 | a line followed by a line feed is split off first |
| ReplyParser.ReplyLines | src/nfe-teste/nfe-teste.controller.ts:204 | `\r\n` and `\n` both end a line, giving as many lines as splitting on line feeds |
| ReplyParser.StoredValue | src/nfe-teste/nfe-teste.controller.ts:219-221 | an empty value is stored as null, and a stored text is never empty |
| ReplyParser.FirstEquals | src/nfe-teste/nfe-teste.controller.ts:216 | finds the first `=` of the line |
| ReplyParser.PairSplitsAtFirstEquals | src/nfe-teste/nfe-teste.controller.ts:216-217 | the key is the trimmed text before the first `=`, and the value is all that follows it, later `=` kept, trimmed, null when empty |
| ReplyParser.StepTrimmed | src/nfe-teste/nfe-teste.controller.ts:209-223 | one line keeps the current section pointing at an object in the parsed map |
| ReplyParser.Step | src/nfe-teste/nfe-teste.controller.ts:209-223 | the same for an untrimmed line |
| ReplyParser.Run | src/nfe-teste/nfe-teste.controller.ts:208-224 | reading any lines keeps the current section pointing at an object |
| ReplyParser.ReadLine | src/nfe-teste/nfe-teste.controller.ts:209-223 | the loop body's in-place update equals one step of the fold |
| ReplyParser.Parse | src/nfe-teste/nfe-teste.controller.ts:204-224 | the definition of the parsed object as the fold of one step per line; `ParseReply` computes it and `SectionReads`, `RootCollects` and `ParseHasNoEmptyValues` state what it holds |
| ReplyParser.ParseReply | src/nfe-teste/nfe-teste.controller.ts:204-224 | the parsing loop returns exactly the fold of the step over the reply's lines |
| ReplyParser.RunAppend | src/nfe-teste/nfe-teste.controller.ts:208-224 | reading two runs of lines is reading one after the other |
| ReplyParser.StepKeepsNoEmptyValues | src/nfe-teste/nfe-teste.controller.ts:217-221 | one line keeps every stored value null or non-empty |
| ReplyParser.RunKeepsNoEmptyValues | src/nfe-teste/nfe-teste.controller.ts:208-224 | reading lines keeps every stored value null or non-empty |
| ReplyParser.ParseHasNoEmptyValues | src/nfe-teste/nfe-teste.controller.ts:204-224 | no parsed value is the empty text |
| ReplyParser.SkippedLine | src/nfe-teste/nfe-teste.controller.ts:210-215 | a line that is neither a header nor holds `=` changes nothing |
| ReplyParser.SectionCollects | src/nfe-teste/nfe-teste.controller.ts:215-222 | inside a section, lines add their pairs to that section, later keys overriding, and touch nothing else |
| ReplyParser.SectionReads | src/nfe-teste/nfe-teste.controller.ts:212-222 | a header opens its section afresh, discarding an earlier section of the same name, and holds exactly the pairs up to the next header |
| ReplyParser.RootCollects | src/nfe-teste/nfe-teste.controller.ts:206-219 | before any header, pairs become top-level values, a later key overriding an earlier one |
| ReplyParser.RootHeaderIsTopLevel | src/nfe-teste/nfe-teste.controller.ts:212-219 | a header named `root` stores an empty object under `root` and sends the following pairs to the top level |
| ReplyParser.DropCRTrim | src/nfe-teste/nfe-teste.controller.ts:204-209 | a trailing carriage return never changes a trimmed line |
| ReplyParser.RunSameTrim | src/nfe-teste/nfe-teste.controller.ts:208-209 | lines that trim alike parse alike |
| ReplyParser.CarriageReturnsIgnored | src/nfe-teste/nfe-teste.controller.ts:204-209 | parsing a reply with `\r\n` endings gives the same object as splitting on line feeds alone |
| Controller.Or | src/nfe-teste/nfe-teste.controller.ts:226 | `a \|\| b` is `a` when truthy, else `b` |
| Controller.StatusCode | src/nfe-teste/nfe-teste.controller.ts:226 | the definition of `parsed.Envio?.CStat \|\| parsed.CStat`; `SectionStatusDecides` and `FallbackStatusDecides` state which one is used |
| Controller.Authorised | src/nfe-teste/nfe-teste.controller.ts:227 | the definition of the verdict: the status is the text 100, 101 or 150; `MissingStatusRejects` and `EnvioSectionDecides` state it for whole replies |
| Controller.Reason | src/nfe-teste/nfe-teste.controller.ts:231 | the definition of `parsed.Envio?.XMotivo \|\| parsed.XMotivo`; `RejectionReason` states which one is quoted |
| Controller.Decide | src/nfe-teste/nfe-teste.controller.ts:226-231 | success carries the fixed message; a rejection carries `Rejeição: ` and the interpolated reason |
| Controller.SectionStatusDecides | src/nfe-teste/nfe-teste.controller.ts:226-227 | with a non-empty `Envio.CStat`, success holds exactly when it is 100, 101 or 150 |
| Controller.FallbackStatusDecides | src/nfe-teste/nfe-teste.controller.ts:226-227 | without a usable `Envio.CStat`, success holds exactly when the top-level `CStat` is one of the three codes |
| Controller.MissingStatusRejects | src/nfe-teste/nfe-teste.controller.ts:226-227 | with no status code at all, the reply is a rejection |
| Controller.RejectionReason | src/nfe-teste/nfe-teste.controller.ts:231 | a rejection quotes `Envio.XMotivo` when given, else the top-level `XMotivo`, else `undefined` |
| Controller.EnvioSectionRead | src/nfe-teste/nfe-teste.controller.ts:212-221 | an `[Envio]` header followed by pairs parses into an `Envio` object of exactly those pairs |
| Controller.EnvioSectionDecides | src/nfe-teste/nfe-teste.controller.ts:204-227 | for a reply of an `[Envio]` header and pairs whose `CStat` is `c`, success holds exactly when `c` is an accepted code |
| Controller.FirstKeyFrom | src/nfe-teste/nfe-teste.controller.ts:46 | finds the leftmost place at or after a position where `Id="NFe`, 44 digits and `"` occur |
| Controller.ExtractKey | src/nfe-teste/nfe-teste.controller.ts:46-47 | the key is 44 digits, and there is none exactly when the pattern occurs nowhere |
| Controller.ExtractKeyLeftmost | src/nfe-teste/nfe-teste.controller.ts:46-47 | the key comes from the leftmost occurrence |
| Controller.ExtractKeyExtend | src/nfe-teste/nfe-teste.controller.ts:46-47 | text appended after a match does not change the key |
| Controller.ExtractKeyPrepend | src/nfe-teste/nfe-teste.controller.ts:46-47 | text without an `I` placed in front does not change the key |
| Controller.InfNFeTagKey | src/nfe-teste/nfe-teste.service.ts:378 | the `infNFe` opening tag yields its key |
| Controller.DocumentKeyFound | src/nfe-teste/nfe-teste.controller.ts:106-107 | the key extracted from the service's document is the key the service generated |

## Left out

- Native library calls are not part of this model: loading, signing, validating,
  sending and printing, status, cancelling, voiding numbers, reading back the XML,
  and the library configuration. Their behaviour is hidden.
- File and environment I/O are not modelled: writing the XML file and setting up paths
  and the environment.
- The clock and `Math.random` are parameters. The offset of two minutes, `toISOString`
  and `formatarDataSefaz` are not modelled; they are date arithmetic over the host
  calendar.
- Floating point is not modelled. Amounts are scaled integers, `reduce` adds exactly,
  and `toFixed` is a formatter parameter that is not interpreted.
- The deprecated `jsonParaINI_OLD` is never called, so it is not modelled.
- HTTP handling is not modelled: exception wrapping, the upload filter, and the module
  and bootstrap files.
- The invoice entity has no behaviour, so it is not modelled.
- Keys that are property names of `Object.prototype` (`constructor`, `__proto__`, …)
  are not modelled. In the UF lookup and the parsed object they would hit inherited
  members.
- Series and number are modelled as whole numbers from 0 up to 10^21 - 1 (`Invoice.WholeNumber`).
  The request type declares them as plain numbers and nothing validates them. A negative or
  fractional value would put `-` or `.` into the key, and a value from 10^21 up would put
  exponent notation (`1e+21`) into it. Either way the check digit would then read `NaN`.
  These cases are not modelled. The random code is `Invoice.RandomCode`, below 10^8, as
  `Math.floor(Math.random() * 100000000)` gives.
- JsText.DecimalStringValue: `DecimalString` writes plain decimal digits for every `n`, but
  JavaScript's `String(n)` does so only below 10^21 and uses exponent notation from there on.
  Series, number and random code stay below that bound by their types. The item number
  `nItem` is bounded only by the number of products, which the model does not limit.
- Text is modelled as a sequence of Unicode code points. JavaScript indexes strings by UTF-16
  code units, so `length`, `padStart`, `substring(35, 43)` and `chaveAcesso[43]` agree with the
  model only for text inside the Basic Multilingual Plane. A CNPJ holding a character outside it
  would shift `cNF` and `cDV` in the code but not in the model.
- Controller.DocumentKeyFound: the controller scans the XML the native library
  re-serialises after loading. The lemma is proved on the document this service
  writes, not on the library's output.

# Inventory tracker for a craft workshop — a Dafny model

The system keeps three lists: materials bought in one unit and used in another
(metres and centimetres, kilograms and grams, litres and millilitres, or plain
units), products with a bill of materials, and a history of production runs.
This project models its core in Dafny and proves what that core promises:

- **Conversoes** — unit recognition (case-insensitive synonyms), conversion to
  and from the base unit, and `calcularConsumoMaterial`, which turns a quantity
  in one unit into another.
- **Calculos** — the cost of a product for a number of pieces, and the largest
  number of pieces the stock allows.
- **Storage** — the storage service as a class whose three list fields are
  read, changed and written back by its methods.
- **Confeccoes** — confirming a production run: find the product, check the
  stock entry by entry, then decrement the stock and record the run at the head
  of the history.
- **Produtos** — the product form: selecting materials, changing and removing
  them, and saving the product.
- **Materiais** — the unit choices of the material form.
- **Helpers** — `validarTextoNaoVazio`, `truncarTexto`, `calcularTotal`,
  `calcularMedia` and `ordenarPor`.
- **Dashboard** — the totals, the low-stock count, the production grouped by
  product, the ten materials with the most money in stock, and the average cost
  per piece.

**Lists** holds the array operations the source uses (`find`, `findIndex`,
`filter`, `reduce` as a sum) with their properties. **Aritmetica** holds the
facts about real numbers and rounding down that the proofs use. **Types**
holds the records.

Numbers are `real`. Quantities that the source parses with `parseInt` are `int`.
Infinity in the maximum-quantity computation is the `Ilimitado` case of a
`Limite` datatype. Randomly generated ids and timestamps are parameters.

## Model

| member | source | states |
|---|---|---|
| Conversoes.Lower | client/src/utils/conversoes.ts:3 | lowercasing keeps the length and maps every character on its own |
| Conversoes.LowerIdempotent | client/src/utils/conversoes.ts:3 | lowercasing twice is lowercasing once |
| Conversoes.ConverterParaUnidadeBase | client/src/utils/conversoes.ts:2-31 | the to-base chain on the lowercased name; its contract is the scale division stated by ParaBaseSegueEscala |
| Conversoes.ConverterDeUnidadeBase | client/src/utils/conversoes.ts:33-53 | the from-base chain on the lowercased name; its contract is the scale product stated by DeBaseSegueEscala |
| Conversoes.CalcularConsumoMaterial | client/src/utils/conversoes.ts:56-66 | to the base unit from the usage unit, then to the purchase unit; its contract is the scale ratio stated by ConsumoSegueEscala |
| Conversoes.IgnoraMaiusculas | client/src/utils/conversoes.ts:2-66 | two spellings of a unit that lowercase alike convert alike, in both directions and in `calcularConsumoMaterial` on either side |
| Conversoes.ConverteComoMinusculas | client/src/utils/conversoes.ts:2-53 | a unit converts exactly as its lowercase form does |
| Conversoes.UnidadesBase | client/src/utils/conversoes.ts:6-24 | metros, m, kg, quilos, litros and l are base units: both conversions return the value and the scale is 1 |
| Conversoes.Centimetros | client/src/utils/conversoes.ts:9-11 | cm and centimetros divide by 100 towards the base unit and multiply by 100 from it |
| Conversoes.Milesimos | client/src/utils/conversoes.ts:17-27 | gramas, g, ml and mililitros divide by 1000 towards the base and multiply by 1000 from it |
| Conversoes.UnidadeDesconhecida | client/src/utils/conversoes.ts:29-30 | a unit that is none of the twelve names leaves the value unchanged both ways and counts as a plain unit |
| Conversoes.UnidadesEhContagem | client/src/utils/conversoes.ts:29-30 | `unidades` is not a recognised name and has scale 1 |
| Conversoes.Escala | client/src/utils/conversoes.ts:2-31 | every unit's factor to its base unit is 1, 100 or 1000 |
| Conversoes.ParaBaseSegueEscala | client/src/utils/conversoes.ts:2-31 | converting to the base unit divides by the unit's scale |
| Conversoes.DeBaseSegueEscala | client/src/utils/conversoes.ts:33-53 | converting from the base unit multiplies by the unit's scale |
| Conversoes.ConsumoSegueEscala | client/src/utils/conversoes.ts:56-66 | `calcularConsumoMaterial` multiplies by the target scale over the source scale |
| Conversoes.IdaEVolta | client/src/utils/conversoes.ts:2-53 | converting to the base unit and back gives the value back |
| Conversoes.ConsumoIdentidade | client/src/utils/conversoes.ts:56-66 | converting a quantity to its own unit changes nothing |
| Conversoes.ConsumoInverso | client/src/utils/conversoes.ts:56-66 | converting from one unit to another and back gives the quantity back |
| Conversoes.ConsumoLinear | client/src/utils/conversoes.ts:56-66 | the conversion commutes with scaling the quantity |
| Conversoes.ConsumoDeZero | client/src/utils/conversoes.ts:56-66 | zero converts to zero |
| Conversoes.ConsumoMonotono | client/src/utils/conversoes.ts:56-66 | the conversion keeps order, strict order, and non-negativity |
| Conversoes.ExemploCentimetros | client/src/utils/conversoes.ts:56-66 | 150 cm is 1.5 metres, and 1.5 metres is 150 "CM" |
| Calculos.BuscarMaterial | client/src/utils/calculos.ts:9 | absent exactly when no material has the id; otherwise the first material in the catalog with that id |
| Calculos.BuscarMaterialUnico | client/src/utils/calculos.ts:9 | with unique ids, looking up a material's own id finds that very material |
| Calculos.Multiplicador | client/src/utils/calculos.ts:20 | `quantidadeProduzir \|\| 1`: the planned quantity when present and non-zero, 1 otherwise |
| Calculos.CustoPorUnidade | client/src/utils/calculos.ts:9-21 | one entry's converted quantity times its material's price, 0 when the material is missing; its sign and linearity are stated by CustoPorUnidadeNaoNegativo and ContribuicaoLinear |
| Calculos.SomaCusto | client/src/utils/calculos.ts:8-22 | the `reduce` of the entries' shares from 0: no entries cost 0 |
| Calculos.CalcularCustoProduto | client/src/utils/calculos.ts:4-23 | a product with no materials costs 0 |
| Calculos.CustoIgnoraAusente | client/src/utils/calculos.ts:10 | an entry whose material is not catalogued adds nothing to the cost, wherever it sits |
| Calculos.CustoLinear | client/src/utils/calculos.ts:19-21 | the cost for k pieces is k times the cost for one |
| Calculos.ContribuicaoLinear | client/src/utils/calculos.ts:21 | one entry's share for k pieces is k times its share for one |
| Calculos.CustoPorUnidadeNaoNegativo | client/src/utils/calculos.ts:13-21 | with non-negative prices and a non-negative quantity, an entry's cost per piece is non-negative, whatever the stock |
| Calculos.ContribuicaoNaoNegativa | client/src/utils/calculos.ts:21 | with non-negative prices, quantity and piece count, an entry's share is non-negative |
| Calculos.CustoNaoNegativo | client/src/utils/calculos.ts:8-22 | with non-negative prices, quantities and piece count, the total is non-negative and at least each entry's share |
| Calculos.CustoMonotono | client/src/utils/calculos.ts:8-22 | with non-negative prices and quantities, more pieces never cost less, and cost strictly more when some entry has a positive cost |
| Calculos.ContribuicaoMonotona | client/src/utils/calculos.ts:21 | with non-negative prices and quantity, an entry's share grows with the piece count, strictly when its cost per piece is positive |
| Calculos.CustoPadraoUmaUnidade | client/src/utils/calculos.ts:20 | a product with no planned quantity, or 0, costs what one piece costs |
| Calculos.ExemploCusto | client/src/utils/calculos.ts:4-23 | two pieces of 150 cm of a material at 10 per metre cost 30 |
| Calculos.LimiteEntrada | client/src/utils/calculos.ts:29-41 | unbounded exactly when the material is missing or the quantity is 0; otherwise the entry's rounded-down quotient |
| Calculos.EstoqueSobreUso | client/src/utils/calculos.ts:34-40 | the stock in the usage unit over the quantity, rounded down; its meaning is stated by AbaixoDoPisoCabe and AcimaDoPisoNaoCabe |
| Calculos.Quantidades | client/src/utils/calculos.ts:29-41 | one bound per entry, in order, each the entry's own bound |
| Calculos.MinDe | client/src/utils/calculos.ts:43 | `Math.min` over the bounds, unbounded for none; its meaning is stated by MinDeEhMinimo |
| Calculos.MinDeEhMinimo | client/src/utils/calculos.ts:43 | the minimum is unbounded only when every bound is; otherwise it is one of the bounds and below every finite one |
| Calculos.CalcularQuantidadeMaximaProduzir | client/src/utils/calculos.ts:43 | a product with no materials can make 0 pieces |
| Calculos.MaximoIlimitado | client/src/utils/calculos.ts:31 | the maximum is unbounded exactly when the list is non-empty and every entry has a missing material or quantity 0 |
| Calculos.MaximoEhMinimo | client/src/utils/calculos.ts:29-43 | a finite maximum is one entry's bound and at most every finite entry bound |
| Calculos.MaximoNaoExcedeEstoque | client/src/utils/calculos.ts:34-40 | the maximum fits in the stock of every catalogued material with a positive quantity, in the usage unit and back in the purchase unit |
| Calculos.AbaixoDoPisoCabe | client/src/utils/calculos.ts:40 | any count up to the rounded-down quotient fits in the material's stock |
| Calculos.AcimaDoPisoNaoCabe | client/src/utils/calculos.ts:40 | one more than the rounded-down quotient needs more than the stock |
| Calculos.MaximoVemDeUmaEntrada | client/src/utils/calculos.ts:29-43 | a finite maximum is the rounded-down quotient of some entry with a positive quantity and a catalogued material |
| Calculos.MaximoAbaixoDeCadaEntrada | client/src/utils/calculos.ts:29-43 | an entry with a positive quantity and a catalogued material makes the maximum finite and bounds it |
| Storage.StorageService.constructor | client/src/services/storage.ts:9-12 | nothing has been saved: every list is empty |
| Storage.StorageService.GetMateriais | client/src/services/storage.ts:9-12 | returns the stored materials |
| Storage.StorageService.SaveMateriais | client/src/services/storage.ts:14-16 | overwrites the materials and leaves the other lists |
| Storage.StorageService.AddMaterial | client/src/services/storage.ts:18-22 | appends the material and leaves the other lists |
| Storage.StorageService.UpdateMaterial | client/src/services/storage.ts:24-31 | replaces the first material with the same id, or changes nothing |
| Storage.StorageService.DeleteMaterial | client/src/services/storage.ts:33-36 | removes every material with the id |
| Storage.StorageService.GetProdutos | client/src/services/storage.ts:39-42 | returns the stored products |
| Storage.StorageService.SaveProdutos | client/src/services/storage.ts:44-46 | overwrites the products and leaves the other lists |
| Storage.StorageService.AddProduto | client/src/services/storage.ts:48-52 | appends the product and leaves the other lists |
| Storage.StorageService.UpdateProduto | client/src/services/storage.ts:54-61 | replaces the first product with the same id, or changes nothing |
| Storage.StorageService.DeleteProduto | client/src/services/storage.ts:63-66 | removes every product with the id |
| Storage.StorageService.GetConfeccoes | client/src/services/storage.ts:69-72 | returns the stored history |
| Storage.StorageService.SaveConfeccoes | client/src/services/storage.ts:74-76 | overwrites the history and leaves the other lists |
| Storage.StorageService.AddConfeccao | client/src/services/storage.ts:78-82 | puts the record at the head of the history |
| Storage.StorageService.DeleteConfeccao | client/src/services/storage.ts:84-87 | removes every record with the id |
| Storage.Atualizar | client/src/services/storage.ts:24-31 | same length; unchanged when no element has the id; otherwise only the first element with the id is replaced |
| Storage.Excluir | client/src/services/storage.ts:33-36 | keeps exactly the elements with another id, and nothing new |
| Storage.AtualizarIdempotente | client/src/services/storage.ts:24-31 | updating twice with the same element is updating once |
| Storage.AtualizarEncontra | client/src/services/storage.ts:24-31 | after updating an id that exists, the element is in the list |
| Storage.ExcluirConcat | client/src/services/storage.ts:33-36 | deletion keeps order: it distributes over concatenation |
| Storage.ExcluirAusente | client/src/services/storage.ts:33-36 | deleting an id nobody has changes nothing |
| Storage.ExcluirIdempotente | client/src/services/storage.ts:33-36 | deleting twice is deleting once |
| Storage.ExcluirDesfazAdicionar | client/src/services/storage.ts:18-36 | deleting what was just appended under a new id restores the list |
| Confeccoes.BuscarProduto | client/src/pages/Confeccoes.tsx:39 | absent exactly when no product has the id; otherwise the first listed product with that id |
| Confeccoes.ConfirmarProducao | client/src/pages/Confeccoes.tsx:36-105 | unknown product or short stock changes nothing and says which; otherwise the stock is decremented, the record goes to the head of the history, products are untouched |
| Confeccoes.Necessario | client/src/pages/Confeccoes.tsx:53-57 | a per-piece quantity of 0 or a count of 0 needs nothing |
| Confeccoes.PrimeiraFalta | client/src/pages/Confeccoes.tsx:49-63 | a reported material is in the catalog and has less stock than the reported need |
| Confeccoes.VerificarEstoque | client/src/pages/Confeccoes.tsx:49-63 | the loop returns the first catalogued entry that is short, with its need |
| Confeccoes.PrimeiraFaltaCorreta | client/src/pages/Confeccoes.tsx:49-63 | the check passes exactly when every catalogued entry has enough stock; a failure names a short material with one entry's need |
| Confeccoes.BuscarEntrada | client/src/pages/Confeccoes.tsx:67 | absent exactly when no entry names the material; otherwise the first entry of the list for it |
| Confeccoes.Baixar | client/src/pages/Confeccoes.tsx:66-79 | only the stock field may change; a material that no entry names is returned as it was |
| Confeccoes.BaixarMateriais | client/src/pages/Confeccoes.tsx:66-80 | the loop builds exactly the mapped list |
| Confeccoes.BaixarEstoque | client/src/pages/Confeccoes.tsx:66-80 | same length, each material through the decrement |
| Confeccoes.BaixaSoDoReferenciado | client/src/pages/Confeccoes.tsx:66-80 | only the stock field changes; a material no entry names is kept; a named one loses that entry's need |
| Confeccoes.BaixaNaoAumenta | client/src/pages/Confeccoes.tsx:66-80 | with non-negative entry quantities and at least one piece, no stock grows |
| Confeccoes.NecessarioNaoNegativo | client/src/pages/Confeccoes.tsx:53-57 | the need is non-negative for non-negative quantities |
| Confeccoes.NovaConfeccao | client/src/pages/Confeccoes.tsx:85-96 | the record carries the new id and date, the product's id, name and materials, and the quantity; for a quantity of 0 its cost is one piece's cost, because of `\|\| 1` |
| Confeccoes.EstoqueNuncaNegativo | client/src/pages/Confeccoes.tsx:59-80 | after a passed check, with unique material ids, a decremented stock is non-negative and every other material is unchanged |
| Confeccoes.CustoRegistrado | client/src/pages/Confeccoes.tsx:90-93 | the recorded cost is the quantity times one piece's cost on the stock before the decrement |
| Confeccoes.MaximoEhViavel | client/src/pages/Confeccoes.tsx:49-63 | with non-negative stock and per-piece quantities, any quantity from 1 up to the maximum from `calcularQuantidadeMaximaProduzir` passes the check, whatever the prices |
| Confeccoes.MaximoEhExato | client/src/pages/Confeccoes.tsx:49-63 | one more than a finite maximum fails the check |
| Confeccoes.EntradaCritica | client/src/pages/Confeccoes.tsx:49-63 | one more than a finite maximum leaves some catalogued entry short |
| Confeccoes.FaltaAcimaDoPiso | client/src/pages/Confeccoes.tsx:53-59 | one more than an entry's rounded-down quotient needs more than the stock |
| Confeccoes.CabeAbaixoDoPiso | client/src/pages/Confeccoes.tsx:53-59 | any count up to an entry's rounded-down quotient fits in the stock |
| Confeccoes.NadaNecessario | client/src/pages/Confeccoes.tsx:53-57 | an entry with quantity 0 needs nothing |
| Produtos.TrocarQuantidade | client/src/pages/Produtos.tsx:67-73 | same ids in the same places; matching entries get the quantity, the others are kept |
| Produtos.AdicionarMaterial | client/src/pages/Produtos.tsx:63-80 | an existing material keeps the length; a new one is appended after the unchanged list; other materials' entries are kept |
| Produtos.RemoverMaterial | client/src/pages/Produtos.tsx:82-86 | the material is gone, every other entry stays, nothing new appears |
| Produtos.AdicionarEncontra | client/src/pages/Produtos.tsx:63-80 | afterwards the material is found with exactly the given quantity |
| Produtos.AdicionarPreservaUnicidade | client/src/pages/Produtos.tsx:63-80 | a selection without repeated materials stays without repeats |
| Produtos.RemoverPreservaUnicidade | client/src/pages/Produtos.tsx:82-86 | removing keeps a selection without repeats |
| Produtos.RemoverAposTrocar | client/src/pages/Produtos.tsx:63-86 | removing after a quantity change is removing from the original |
| Produtos.RemoverDesfazAdicionar | client/src/pages/Produtos.tsx:63-86 | removing after adding is removing straight away, and restores a selection that lacked the material |
| Produtos.AlternarMaterial | client/src/pages/Produtos.tsx:178-183 | checking selects the material with quantity 1; unchecking deselects it |
| Produtos.SalvarProduto | client/src/pages/Produtos.tsx:25-54 | an empty selection is refused with nothing stored; otherwise the product is built from the form and replaces its old version when editing, or is appended |
| Materiais.UnidadesUso | client/src/pages/Materiais.tsx:108-128 | metros offers metros and cm, kg offers kg and gramas, litros offers litros and ml; anything else offers only `unidades` |
| Materiais.UnidadeUsoAutomatica | client/src/pages/Materiais.tsx:157-164 | the unit picked is one the purchase unit offers, the smaller one when there is one |
| Materiais.CompraEntreUsos | client/src/pages/Materiais.tsx:101-128 | every purchase unit offered is among its own usage units |
| Materiais.PadraoValido | client/src/pages/Materiais.tsx:69-72 | the starting pair metros/cm is offered and is what the form would pick |
| Materiais.ParMesmaDimensao | client/src/pages/Materiais.tsx:101-128 | every allowed pair stays in one dimension, the purchase unit is a base unit, and stock converts to the usage unit by 1, 100 or 1000 |
| Helpers.Trim | client/src/utils/helpers.ts:8 | no longer than the text, white space at neither end, empty exactly when the text is all white space |
| Helpers.TrimIdempotente | client/src/utils/helpers.ts:8 | trimming twice is trimming once |
| Helpers.ValidarTextoNaoVazio | client/src/utils/helpers.ts:7-9 | true exactly when some character is not white space |
| Helpers.TruncarTexto | client/src/utils/helpers.ts:44-47 | a text that fits is returned as is; a longer one is its first `maxLength` characters and `...` |
| Helpers.TruncarIdempotente | client/src/utils/helpers.ts:44-47 | the result is at most `maxLength + 3` long, and truncating again changes nothing |
| Helpers.CalcularTotal | client/src/utils/helpers.ts:73-75 | the empty list totals 0 |
| Helpers.TotalConcat | client/src/utils/helpers.ts:73-75 | the total of two lists one after the other is the sum of their totals |
| Helpers.TotalEntre | client/src/utils/helpers.ts:73-75 | values between two bounds total between n times each bound |
| Helpers.CalcularMedia | client/src/utils/helpers.ts:68-71 | 0 for no values; otherwise the mean times the count is the total |
| Helpers.MediaEntre | client/src/utils/helpers.ts:68-71 | the mean of values between two bounds lies between them |
| Helpers.Inserir | client/src/utils/helpers.ts:83-90 | inserting into a sorted list gives a sorted list with one more element, the same multiset plus the element |
| Helpers.OrdenarPor | client/src/utils/helpers.ts:78-91 | a sorted permutation of the input: same length, same multiset, non-decreasing for `Asc`, non-increasing for `Desc` |
| Dashboard.TotalConfeccoes | client/src/pages/Dashboard.tsx:35 | an empty history made 0 pieces |
| Dashboard.CustoTotalConfeccoes | client/src/pages/Dashboard.tsx:36 | an empty history cost 0 |
| Dashboard.ValorEstoque | client/src/pages/Dashboard.tsx:38-41 | no materials are worth 0 |
| Dashboard.TotaisAoRegistrar | client/src/pages/Dashboard.tsx:35-36 | a record put at the head of the history adds its pieces and its cost to the totals |
| Dashboard.ValorEstoqueNaoNegativo | client/src/pages/Dashboard.tsx:38-41 | non-negative stock and prices give a non-negative stock value |
| Dashboard.MateriaisBaixoEstoque | client/src/pages/Dashboard.tsx:44 | at most the number of materials, and 0 exactly when no material has stock below 20 |
| Dashboard.BaixoEstoqueConcat | client/src/pages/Dashboard.tsx:44 | the count over two lists is the sum of the counts |
| Dashboard.PosicaoDoGrupo | client/src/pages/Dashboard.tsx:48 | -1 exactly when no entry has the name; otherwise the first entry with it |
| Dashboard.Acumular | client/src/pages/Dashboard.tsx:48-58 | the list grows by one exactly when no entry has the record's product, and otherwise keeps its length |
| Dashboard.Agrupar | client/src/pages/Dashboard.tsx:47-60 | the `reduce` from the empty list, record by record from the first; its meaning is stated by AgruparCorreto and GruposSomamOsTotais |
| Dashboard.PrimeiraVez | client/src/pages/Dashboard.tsx:47-60 | -1 exactly when no record has the product; otherwise the first record of it |
| Dashboard.AgruparCorreto | client/src/pages/Dashboard.tsx:47-60 | entries follow the order of each product's first record (so no name repeats), exist only for products with records, cover every record, and hold each product's pieces and cost |
| Dashboard.NomesDistintos | client/src/pages/Dashboard.tsx:47-60 | no two entries share a name |
| Dashboard.GruposSomamOsTotais | client/src/pages/Dashboard.tsx:35-60 | the entries' pieces add up to `totalConfeccoes` and their costs to `custoTotalConfeccoes` |
| Dashboard.ConfeccoesPorProduto | client/src/pages/Dashboard.tsx:47-60 | the loop builds the grouping, and the grouping is correct as above |
| Dashboard.ItemDe | client/src/pages/Dashboard.tsx:64-67 | names up to 15 characters are kept, longer ones become 15 characters and `...`; the value is stock times price |
| Dashboard.Itens | client/src/pages/Dashboard.tsx:63-67 | one item per material, in the same order |
| Dashboard.EstoqueValorMateriais | client/src/pages/Dashboard.tsx:63-69 | ten items, or all when fewer; sorted by value, largest first; drawn from the materials; no left-out material worth more than a kept item |
| Dashboard.TopoOrdenado | client/src/pages/Dashboard.tsx:68-69 | the head of a sorted copy is sorted, drawn from the list, and worth at least every item left out |
| Dashboard.CustoMedioPorPeca | client/src/pages/Dashboard.tsx:252 | the cost per piece times the pieces is the total cost; 0 when no piece was made |
| Lists.FindIndex | client/src/services/storage.ts:26 | -1 exactly when no element satisfies the predicate; otherwise the first index that does |
| Lists.Find | client/src/pages/Confeccoes.tsx:39 | absent exactly when no element satisfies the predicate; otherwise the first element that does |
| Lists.Filter | client/src/services/storage.ts:34 | no longer than the list; keeps every element that satisfies the predicate and only such elements |
| Lists.SomaPor | client/src/utils/helpers.ts:73-75 | the `reduce` that adds `f` of each element from 0, left to right; its properties are stated by SomaPorConcat, SomaPorEscala and SomaPorNaoNegativa |

## Left out

- Browser storage, JSON, the Firebase service, and the screens: alerts, toasts, forms, charts, loading state and reloading after a change. The storage service's lists are class fields. Each outcome that the source shows as an alert is a result value instead.
- Floating point: numbers are exact reals. NaN, infinities other than the unbounded maximum, rounding in the conversions, and `toFixed(2)` are not modelled. In `estoqueValorMateriais`, `parseFloat(...toFixed(2))` rounds each value to cents; the model keeps the exact product.
- `parseInt` of the form fields: the model receives the parsed integer. The product form's `quantidadeProduzir` is an `Option<int>`, with `None` standing for NaN. A quantity field that does not parse is not modelled on the production page.
- `crypto.randomUUID()` and `new Date().toISOString()` are parameters of the methods that use them.
- The product list on the production page is a parameter of `ConfirmarProducao`, as it is page state in the source.
- Conversoes.Lower: lowercases only `A`–`Z`. JavaScript's `toLowerCase` also maps other letters; this never changes a conversion result. For example U+212A KELVIN SIGN lowercases to `k`, so that sign followed by `g` reads as `kg` in the source and as an unknown name in the model, and both have scale 1.
- Calculos.BuscarMaterialUnico, Confeccoes.EstoqueNuncaNegativo: need unique material ids. With repeated ids the check looks at the first material while the decrement applies to every copy, so a later copy can go negative. The source always creates ids with `randomUUID`.
- Helpers.Trim: does not state that the result is a contiguous slice of the text.
- Helpers.OrdenarPor: keys are numbers (`T -> real`). JavaScript's `<` on strings and mixed key types is not modelled, and stability is not stated.
- Helpers.TruncarTexto: `maxLength` is an integer, with negative values treated as 0 as `substring` does. Fractional and NaN lengths are not modelled.
- Helpers.TruncarTexto: lengths and the cut count Unicode characters, while JavaScript's `length` and `substring` count UTF-16 code units. A text with a character outside the Basic Multilingual Plane, such as an emoji, is longer in the source, and the source can cut it between the two halves of a surrogate pair; the model cuts such a text at a different place.
- Dashboard.ItemDe: the 15-character cut of a material name counts Unicode characters, not UTF-16 code units, as for Helpers.TruncarTexto; names with characters outside the Basic Multilingual Plane are cut at a different place than in the source.
- `validarNumeroPositivo`, the date and currency formatting helpers, and `debounce` are not part of this model: they wrap `parseFloat`, `Intl`, `Date` and timers.
- Dashboard: `totalProdutos`, the pie-chart data and `ultimasConfeccoes` are not modelled. The first two are a length and a plain `map`; the last sorts by parsed dates.
- Dashboard.ConfeccoesPorProduto: the source mutates the found entry object in place. The model replaces the entry in a sequence, which gives the same result because the accumulator is not shared.
- Produtos.SalvarProduto: the `try`/`catch` around the store calls is not modelled, because the local storage calls do not fail in the model.
- Produtos.SalvarProduto: the product name is not validated, as in the source.
- Confeccoes.ConfirmarProducao: the handler has no check that the quantity is at least 1, and neither does the model. The form's `min="1"` and `required` attributes make the browser refuse smaller values before the handler runs; that browser check is not part of this model. A negative quantity gives a negative need, so the check passes and the stock rises; BaixaNaoAumenta does not apply to it. A quantity of 0 needs nothing and leaves every stock unchanged, and the record's cost is that of one piece because `|| 1` turns 0 into 1 (NovaConfeccao states this).

/**
 * Costing and max-producible calculations (client/src/utils/calculos.ts).
 */
module Calculos {
  import opened Types
  import opened Lists
  import opened Conversoes
  import opened Aritmetica

  /** `materiais.find(m => m.id === id)`: the first material with that id. */
  function BuscarMaterial(materiais: seq<Material>, id: string): (r: Option<Material>)
    ensures r.None? <==> forall k :: 0 <= k < |materiais| ==> materiais[k].id != id
    ensures r.Some? ==> r.value.id == id && r.value in materiais
    ensures r.Some? ==> exists k :: 0 <= k < |materiais| && materiais[k] == r.value && forall j :: 0 <= j < k ==> materiais[j].id != id
  {
    if materiais == [] then None
    else if materiais[0].id == id then Some(materiais[0])
    else
      var r := BuscarMaterial(materiais[1..], id);
      assert r.Some? ==> exists k :: 1 <= k < |materiais| && materiais[k] == r.value && forall j :: 0 <= j < k ==> materiais[j].id != id by {
        if r.Some? {
          var k :| 0 <= k < |materiais| - 1 && materiais[1..][k] == r.value &&
            forall j :: 0 <= j < k ==> materiais[1..][j].id != id;
          assert materiais[k + 1] == r.value;
          assert forall j :: 1 <= j < k + 1 ==> materiais[j] == materiais[1..][j - 1];
        }
      }
      r
  }

  /** With unique ids, looking up a material's own id finds that material. */
  lemma BuscarMaterialUnico(materiais: seq<Material>, i: int)
    requires 0 <= i < |materiais|
    requires IdsUnicos(materiais)
    ensures BuscarMaterial(materiais, materiais[i].id) == Some(materiais[i])
  {
    var r := BuscarMaterial(materiais, materiais[i].id);
    var k :| 0 <= k < |materiais| && materiais[k] == r.value;
    assert k == i;
  }

  /** No two materials of the catalog share an id. */
  ghost predicate IdsUnicos(materiais: seq<Material>)
  {
    forall i, j :: 0 <= i < j < |materiais| ==> materiais[i].id != materiais[j].id
  }

  // ---------------------------------------------------------------------------
  // calcularCustoProduto
  // ---------------------------------------------------------------------------

  /** `produto.quantidadeProduzir || 1`: a missing or zero quantity counts as 1. */
  function Multiplicador(quantidadeProduzir: Option<int>): (k: int)
    ensures k != 0
    ensures quantidadeProduzir.Some? && quantidadeProduzir.value != 0 ==> k == quantidadeProduzir.value
    ensures quantidadeProduzir.None? || quantidadeProduzir.value == 0 ==> k == 1
  {
    match quantidadeProduzir
    case None => 1
    case Some(q) => if q == 0 then 1 else q
  }

  /** The price of one product unit's worth of an entry, in the purchase unit: nothing when its material is missing. */
  function CustoPorUnidade(mp: MaterialProduto, materiais: seq<Material>): real
  {
    match BuscarMaterial(materiais, mp.materialId)
    case None => 0.0
    case Some(m) => CalcularConsumoMaterial(mp.quantidadeUsada, m.unidadeUso, m.unidadeCompra) * m.valorUnitario
  }

  /** What one bill-of-materials entry adds to the total: `consumo * valorUnitario * quantidadeProdutos`. */
  function Contribuicao(mp: MaterialProduto, materiais: seq<Material>, k: int): real
  {
    CustoPorUnidade(mp, materiais) * k as real
  }

  /** The `reduce` callback's summand, for a multiplier `k`. */
  function Parcela(materiais: seq<Material>, k: int): MaterialProduto -> real
  {
    (mp: MaterialProduto) => Contribuicao(mp, materiais, k)
  }

  /** The `reduce` over the bill of materials: the entries' contributions added left to right from 0. */
  function SomaCusto(entradas: seq<MaterialProduto>, materiais: seq<Material>, k: int): (r: real)
    ensures entradas == [] ==> r == 0.0
  {
    SomaPor(entradas, Parcela(materiais, k))
  }

  /** `calcularCustoProduto`. */
  function CalcularCustoProduto(produto: Produto, materiais: seq<Material>): (r: real)
    ensures produto.materiais == [] ==> r == 0.0
  {
    SomaCusto(produto.materiais, materiais, Multiplicador(produto.quantidadeProduzir))
  }

  /** An entry whose material is not in the catalog adds nothing, wherever it stands. */
  lemma CustoIgnoraAusente(a: seq<MaterialProduto>, e: MaterialProduto, b: seq<MaterialProduto>, materiais: seq<Material>, k: int)
    requires BuscarMaterial(materiais, e.materialId).None?
    ensures SomaCusto(a + [e] + b, materiais, k) == SomaCusto(a + b, materiais, k)
  {
    var f := Parcela(materiais, k);
    SomaPorConcat(a + [e], b, f);
    SomaPorConcat(a, [e], f);
    SomaPorConcat(a, b, f);
    assert SomaPor([e], f) == 0.0 by {
      assert [e][..0] == [];
    }
  }

  /** Cost scales linearly with the production multiplier. */
  lemma CustoLinear(entradas: seq<MaterialProduto>, materiais: seq<Material>, k: int)
    ensures SomaCusto(entradas, materiais, k) == k as real * SomaCusto(entradas, materiais, 1)
  {
    ParcelasLineares(entradas, materiais, k);
    SomaPorEscala(entradas, Parcela(materiais, k), Parcela(materiais, 1), k as real);
  }

  /** Every entry's share scales linearly with the multiplier. */
  lemma ParcelasLineares(entradas: seq<MaterialProduto>, materiais: seq<Material>, k: int)
    ensures forall i :: 0 <= i < |entradas| ==>
      Parcela(materiais, k)(entradas[i]) == k as real * Parcela(materiais, 1)(entradas[i])
  {
    forall i | 0 <= i < |entradas|
      ensures Parcela(materiais, k)(entradas[i]) == k as real * Parcela(materiais, 1)(entradas[i])
    {
      ContribuicaoLinear(entradas[i], materiais, k);
    }
  }

  /** One entry's share scales linearly with the multiplier. */
  lemma ContribuicaoLinear(mp: MaterialProduto, materiais: seq<Material>, k: int)
    ensures Contribuicao(mp, materiais, k) == k as real * Contribuicao(mp, materiais, 1)
  {
    Comuta(CustoPorUnidade(mp, materiais), k as real);
  }

  /** Every catalogued material has a non-negative price. */
  ghost predicate PrecosNaoNegativos(materiais: seq<Material>)
  {
    forall i :: 0 <= i < |materiais| ==> materiais[i].valorUnitario >= 0.0
  }

  /** Every catalogued material has a non-negative stock. */
  ghost predicate EstoquesNaoNegativos(materiais: seq<Material>)
  {
    forall i :: 0 <= i < |materiais| ==> materiais[i].estoqueAtual >= 0.0
  }

  ghost predicate EntradasNaoNegativas(entradas: seq<MaterialProduto>)
  {
    forall i :: 0 <= i < |entradas| ==> entradas[i].quantidadeUsada >= 0.0
  }

  /** With non-negative quantities and prices an entry's cost per unit is never negative. */
  lemma CustoPorUnidadeNaoNegativo(mp: MaterialProduto, materiais: seq<Material>)
    requires PrecosNaoNegativos(materiais) && mp.quantidadeUsada >= 0.0
    ensures CustoPorUnidade(mp, materiais) >= 0.0
  {
    match BuscarMaterial(materiais, mp.materialId)
    case None =>
    case Some(m) =>
      ConsumoMonotono(mp.quantidadeUsada, mp.quantidadeUsada, m.unidadeUso, m.unidadeCompra);
      ProdutoNaoNegativo(CalcularConsumoMaterial(mp.quantidadeUsada, m.unidadeUso, m.unidadeCompra), m.valorUnitario, 1.0);
  }

  lemma ContribuicaoNaoNegativa(mp: MaterialProduto, materiais: seq<Material>, k: int)
    requires PrecosNaoNegativos(materiais) && mp.quantidadeUsada >= 0.0 && k >= 0
    ensures Contribuicao(mp, materiais, k) >= 0.0
  {
    CustoPorUnidadeNaoNegativo(mp, materiais);
    ProdutoNaoNegativo(CustoPorUnidade(mp, materiais), k as real, 1.0);
  }

  /** With non-negative prices and quantities the cost is never negative, and each entry's share is part of it. */
  lemma CustoNaoNegativo(entradas: seq<MaterialProduto>, materiais: seq<Material>, k: int)
    requires PrecosNaoNegativos(materiais) && EntradasNaoNegativas(entradas) && k >= 0
    ensures SomaCusto(entradas, materiais, k) >= 0.0
    ensures forall i :: 0 <= i < |entradas| ==> SomaCusto(entradas, materiais, k) >= Contribuicao(entradas[i], materiais, k)
  {
    forall i | 0 <= i < |entradas| ensures Parcela(materiais, k)(entradas[i]) >= 0.0 {
      ContribuicaoNaoNegativa(entradas[i], materiais, k);
    }
    SomaPorNaoNegativa(entradas, Parcela(materiais, k));
  }

  /**
   * Producing more never costs less, and strictly more when some entry's
   * material is catalogued with a positive cost per unit.
   */
  lemma CustoMonotono(produto: Produto, materiais: seq<Material>, k1: int, k2: int)
    requires PrecosNaoNegativos(materiais) && EntradasNaoNegativas(produto.materiais)
    requires 1 <= k1 < k2
    ensures CalcularCustoProduto(produto.(quantidadeProduzir := Some(k1)), materiais)
         <= CalcularCustoProduto(produto.(quantidadeProduzir := Some(k2)), materiais)
    ensures (exists i :: 0 <= i < |produto.materiais| && CustoPorUnidade(produto.materiais[i], materiais) > 0.0) ==>
      CalcularCustoProduto(produto.(quantidadeProduzir := Some(k1)), materiais)
        < CalcularCustoProduto(produto.(quantidadeProduzir := Some(k2)), materiais)
  {
    var es := produto.materiais;
    assert CalcularCustoProduto(produto.(quantidadeProduzir := Some(k1)), materiais) == SomaCusto(es, materiais, k1);
    assert CalcularCustoProduto(produto.(quantidadeProduzir := Some(k2)), materiais) == SomaCusto(es, materiais, k2);
    forall i | 0 <= i < |es|
      ensures Parcela(materiais, k1)(es[i]) <= Parcela(materiais, k2)(es[i])
      ensures CustoPorUnidade(es[i], materiais) > 0.0 ==> Parcela(materiais, k1)(es[i]) < Parcela(materiais, k2)(es[i])
    {
      ContribuicaoMonotona(es[i], materiais, k1, k2);
    }
    SomaPorMonotona(es, Parcela(materiais, k1), Parcela(materiais, k2));
  }

  /** One entry's share grows with the multiplier, strictly when its cost per unit is positive. */
  lemma ContribuicaoMonotona(mp: MaterialProduto, materiais: seq<Material>, k1: int, k2: int)
    requires PrecosNaoNegativos(materiais) && mp.quantidadeUsada >= 0.0 && k1 <= k2
    ensures Contribuicao(mp, materiais, k1) <= Contribuicao(mp, materiais, k2)
    ensures CustoPorUnidade(mp, materiais) > 0.0 && k1 < k2 ==> Contribuicao(mp, materiais, k1) < Contribuicao(mp, materiais, k2)
  {
    var u := CustoPorUnidade(mp, materiais);
    CustoPorUnidadeNaoNegativo(mp, materiais);
    MultiplicaMonotono2(u, k1 as real, k2 as real);
    if u > 0.0 && k1 < k2 {
      assert k1 as real < k2 as real;
      assert u * k1 as real < u * k2 as real;
    }
  }

  /** A product with no planned quantity (or 0) costs what one unit costs. */
  lemma CustoPadraoUmaUnidade(produto: Produto, materiais: seq<Material>)
    requires produto.quantidadeProduzir.None? || produto.quantidadeProduzir == Some(0)
    ensures CalcularCustoProduto(produto, materiais) == CalcularCustoProduto(produto.(quantidadeProduzir := Some(1)), materiais)
  {
  }

  /** 150 cm per piece of a material that costs 10 per metre: two pieces cost 30. */
  lemma ExemploCusto()
    ensures CalcularCustoProduto(
      Produto("p", "Bolsa", [MaterialProduto("t", 150.0)], Some(2)),
      [Material("t", "Tecido", "metros", "cm", 5.0, 10.0)]) == 30.0
  {
    var ms := [Material("t", "Tecido", "metros", "cm", 5.0, 10.0)];
    var es := [MaterialProduto("t", 150.0)];
    assert BuscarMaterial(ms, "t") == Some(ms[0]);
    ExemploCentimetros();
    assert es[..0] == [];
  }

  // ---------------------------------------------------------------------------
  // calcularQuantidadeMaximaProduzir
  // ---------------------------------------------------------------------------

  /** A production limit: a whole number of units, or `Infinity`. */
  datatype Limite = Limitado(n: int) | Ilimitado

  /** `Math.min` of two limits. */
  function Min(a: Limite, b: Limite): Limite
  {
    match (a, b)
    case (Ilimitado, _) => b
    case (_, Ilimitado) => a
    case (Limitado(x), Limitado(y)) => Limitado(if x <= y then x else y)
  }

  /** The `map` callback: how many units one entry's stock allows. */
  function LimiteEntrada(mp: MaterialProduto, materiais: seq<Material>): (r: Limite)
    ensures r.Ilimitado? <==> BuscarMaterial(materiais, mp.materialId).None? || mp.quantidadeUsada == 0.0
  {
    match BuscarMaterial(materiais, mp.materialId)
    case None => Ilimitado
    case Some(m) =>
      if mp.quantidadeUsada == 0.0 then Ilimitado
      else Limitado(EstoqueSobreUso(m, mp.quantidadeUsada))
  }

  /** The `map` over the bill of materials: one limit per entry. */
  function Quantidades(entradas: seq<MaterialProduto>, materiais: seq<Material>): (r: seq<Limite>)
    ensures |r| == |entradas|
    ensures forall i :: 0 <= i < |entradas| ==> r[i] == LimiteEntrada(entradas[i], materiais)
  {
    seq(|entradas|, i requires 0 <= i < |entradas| => LimiteEntrada(entradas[i], materiais))
  }

  /** `Math.min(...quantidades)`; `Math.min()` of nothing is `Infinity`. */
  function MinDe(limites: seq<Limite>): Limite
  {
    if limites == [] then Ilimitado else Min(limites[0], MinDe(limites[1..]))
  }

  /**
   * The minimum is `Infinity` exactly when every limit is; otherwise it is one
   * of the limits and no limit is smaller.
   */
  lemma {:induction false} MinDeEhMinimo(limites: seq<Limite>)
    ensures MinDe(limites).Ilimitado? <==> forall i :: 0 <= i < |limites| ==> limites[i].Ilimitado?
    ensures MinDe(limites).Limitado? ==> exists i :: 0 <= i < |limites| && limites[i] == MinDe(limites)
    ensures MinDe(limites).Limitado? ==>
      forall i :: 0 <= i < |limites| && limites[i].Limitado? ==> MinDe(limites).n <= limites[i].n
  {
    if limites != [] {
      var resto := limites[1..];
      MinDeEhMinimo(resto);
      assert forall i :: 1 <= i < |limites| ==> limites[i] == resto[i - 1];
      var r, h, t := MinDe(limites), limites[0], MinDe(resto);
      if r.Limitado? {
        if h.Limitado? && (t.Ilimitado? || h.n <= t.n) {
          assert r == h;
        } else {
          assert r == t;
          var j :| 0 <= j < |resto| && resto[j] == t;
          assert limites[j + 1] == resto[j];
        }
      }
    }
  }

  /** `calcularQuantidadeMaximaProduzir`: an empty bill of materials gives 0. */
  function CalcularQuantidadeMaximaProduzir(produto: Produto, materiais: seq<Material>): (r: Limite)
    ensures produto.materiais == [] ==> r == Limitado(0)
  {
    var quantidades := Quantidades(produto.materiais, materiais);
    if |quantidades| > 0 then MinDe(quantidades) else Limitado(0)
  }

  /** The result is `Infinity` exactly when the list is non-empty and no entry imposes a bound. */
  lemma MaximoIlimitado(produto: Produto, materiais: seq<Material>)
    ensures CalcularQuantidadeMaximaProduzir(produto, materiais).Ilimitado? <==>
      produto.materiais != [] &&
      forall i :: 0 <= i < |produto.materiais| ==>
        BuscarMaterial(materiais, produto.materiais[i].materialId).None? || produto.materiais[i].quantidadeUsada == 0.0
  {
    MinDeEhMinimo(Quantidades(produto.materiais, materiais));
  }

  /** For a non-empty list the result is the minimum of the per-entry floors. */
  lemma MaximoEhMinimo(produto: Produto, materiais: seq<Material>)
    requires produto.materiais != []
    requires CalcularQuantidadeMaximaProduzir(produto, materiais).Limitado?
    ensures var n := CalcularQuantidadeMaximaProduzir(produto, materiais).n;
      (exists i :: 0 <= i < |produto.materiais| && LimiteEntrada(produto.materiais[i], materiais) == Limitado(n)) &&
      (forall i :: 0 <= i < |produto.materiais| && LimiteEntrada(produto.materiais[i], materiais).Limitado? ==>
         n <= LimiteEntrada(produto.materiais[i], materiais).n)
  {
    MinDeEhMinimo(Quantidades(produto.materiais, materiais));
  }

  /**
   * `n` units, each using `q` of material `m` (in its usage unit), fit in its
   * stock: in the usage unit, and converted back to the purchase unit.
   */
  ghost predicate CabeNoEstoque(m: Material, q: real, n: int)
  {
    n as real * q <= CalcularConsumoMaterial(m.estoqueAtual, m.unidadeCompra, m.unidadeUso) &&
    CalcularConsumoMaterial(q * n as real, m.unidadeUso, m.unidadeCompra) <= m.estoqueAtual
  }

  /**
   * No overcommit: for every entry with a positive per-unit quantity and a
   * catalogued material, the maximum fits in that material's stock.
   */
  lemma MaximoNaoExcedeEstoque(produto: Produto, materiais: seq<Material>, i: int)
    requires 0 <= i < |produto.materiais|
    requires CalcularQuantidadeMaximaProduzir(produto, materiais).Limitado?
    requires produto.materiais[i].quantidadeUsada > 0.0
    requires BuscarMaterial(materiais, produto.materiais[i].materialId).Some?
    ensures CabeNoEstoque(BuscarMaterial(materiais, produto.materiais[i].materialId).value,
      produto.materiais[i].quantidadeUsada, CalcularQuantidadeMaximaProduzir(produto, materiais).n)
  {
    MaximoEhMinimo(produto, materiais);
    var mp := produto.materiais[i];
    var m := BuscarMaterial(materiais, mp.materialId).value;
    assert LimiteEntrada(mp, materiais) == Limitado(EstoqueSobreUso(m, mp.quantidadeUsada));
    AbaixoDoPisoCabe(m, mp.quantidadeUsada, CalcularQuantidadeMaximaProduzir(produto, materiais).n);
  }

  /** An entry's own bound: its material's stock in the usage unit, divided by the quantity, rounded down. */
  function EstoqueSobreUso(m: Material, quantidadeUsada: real): int
    requires quantidadeUsada != 0.0
  {
    (CalcularConsumoMaterial(m.estoqueAtual, m.unidadeCompra, m.unidadeUso) / quantidadeUsada).Floor
  }

  /** A count no larger than a material's bound fits in its stock. */
  lemma AbaixoDoPisoCabe(m: Material, q: real, n: int)
    requires q > 0.0 && n <= EstoqueSobreUso(m, q)
    ensures CabeNoEstoque(m, q, n)
  {
    var s := CalcularConsumoMaterial(m.estoqueAtual, m.unidadeCompra, m.unidadeUso);
    PisoVezesDivisor(n, s, q);
    ConsumoMonotono(q * n as real, s, m.unidadeUso, m.unidadeCompra);
    ConsumoInverso(m.estoqueAtual, m.unidadeCompra, m.unidadeUso);
  }

  /** One unit more than a material's bound does not fit in its stock. */
  lemma AcimaDoPisoNaoCabe(m: Material, q: real, k: int)
    requires q > 0.0 && k == EstoqueSobreUso(m, q) + 1
    ensures CalcularConsumoMaterial(q * k as real, m.unidadeUso, m.unidadeCompra) > m.estoqueAtual
  {
    var s := CalcularConsumoMaterial(m.estoqueAtual, m.unidadeCompra, m.unidadeUso);
    PisoMaisUm(s, q, k);
    ConsumoMonotono(s, q * k as real, m.unidadeUso, m.unidadeCompra);
    ConsumoInverso(m.estoqueAtual, m.unidadeCompra, m.unidadeUso);
  }

  /**
   * A finite maximum is the bound of an entry with a positive quantity and a
   * catalogued material; a count within the maximum is within every such bound.
   */
  lemma MaximoVemDeUmaEntrada(produto: Produto, materiais: seq<Material>)
    requires EntradasNaoNegativas(produto.materiais) && produto.materiais != []
    requires CalcularQuantidadeMaximaProduzir(produto, materiais).Limitado?
    ensures exists i :: (0 <= i < |produto.materiais| && produto.materiais[i].quantidadeUsada > 0.0 &&
      BuscarMaterial(materiais, produto.materiais[i].materialId).Some? &&
      EstoqueSobreUso(BuscarMaterial(materiais, produto.materiais[i].materialId).value, produto.materiais[i].quantidadeUsada)
        == CalcularQuantidadeMaximaProduzir(produto, materiais).n)
  {
    MaximoEhMinimo(produto, materiais);
  }

  /** Every entry with a positive quantity and a catalogued material bounds the maximum. */
  lemma MaximoAbaixoDeCadaEntrada(produto: Produto, materiais: seq<Material>, i: int)
    requires 0 <= i < |produto.materiais| && produto.materiais[i].quantidadeUsada > 0.0
    requires BuscarMaterial(materiais, produto.materiais[i].materialId).Some?
    ensures CalcularQuantidadeMaximaProduzir(produto, materiais).Limitado?
    ensures CalcularQuantidadeMaximaProduzir(produto, materiais).n <=
      EstoqueSobreUso(BuscarMaterial(materiais, produto.materiais[i].materialId).value, produto.materiais[i].quantidadeUsada)
  {
    MaximoIlimitado(produto, materiais);
    MaximoEhMinimo(produto, materiais);
  }
}

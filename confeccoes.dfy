/**
 * Confirming a production run (client/src/pages/Confeccoes.tsx,
 * `handleConfirmarProducao`): find the product, check every bill-of-materials
 * entry against the stock, and only when all of them fit, decrement the stock
 * and put a production record at the front of the history.
 */
module Confeccoes {
  import opened Types
  import opened Lists
  import opened Conversoes
  import opened Calculos
  import opened Aritmetica
  import opened Storage

  /**
   * How a confirmation ends. The source shows an alert in each case; the first
   * two change nothing.
   */
  datatype Resultado =
    | ProdutoNaoEncontrado
    | EstoqueInsuficiente(material: Material, necessario: real)
    | Registrada(confeccao: Confeccao)

  /** `produtos.find(p => p.id === produtoSelecionado)`: the first product with that id. */
  function BuscarProduto(produtos: seq<Produto>, id: string): (r: Option<Produto>)
    ensures r.None? <==> forall k :: 0 <= k < |produtos| ==> produtos[k].id != id
    ensures r.Some? ==> r.value.id == id && exists k :: 0 <= k < |produtos| && produtos[k] == r.value && forall j :: 0 <= j < k ==> produtos[j].id != id
  {
    Find(produtos, (p: Produto) => p.id == id)
  }

  /** `consumoTotal`: what `quantidade` units need of material `m` for entry `mp`, in the purchase unit. */
  function Necessario(mp: MaterialProduto, m: Material, quantidade: int): (r: real)
    ensures mp.quantidadeUsada == 0.0 || quantidade == 0 ==> r == 0.0
  {
    ConsumoDeZero(m.unidadeUso, m.unidadeCompra);
    CalcularConsumoMaterial(mp.quantidadeUsada * quantidade as real, m.unidadeUso, m.unidadeCompra)
  }

  /** The need as a conversion, stated where the context is too rich for the solver to unfold it cheaply. */
  lemma NecessarioEmCompra(mp: MaterialProduto, m: Material, quantidade: int)
    ensures Necessario(mp, m, quantidade) ==
      CalcularConsumoMaterial(mp.quantidadeUsada * quantidade as real, m.unidadeUso, m.unidadeCompra)
  {
  }

  /**
   * The validation loop: the first entry, in bill-of-materials order, whose
   * catalogued material has less stock than it needs, with that need. Entries
   * whose material is missing are skipped.
   */
  function PrimeiraFalta(entradas: seq<MaterialProduto>, materiais: seq<Material>, quantidade: int): (r: Option<(Material, real)>)
    ensures r.Some? ==> r.value.0 in materiais && r.value.0.estoqueAtual < r.value.1
  {
    if entradas == [] then None
    else
      match BuscarMaterial(materiais, entradas[0].materialId)
      case None => PrimeiraFalta(entradas[1..], materiais, quantidade)
      case Some(m) =>
        if m.estoqueAtual < Necessario(entradas[0], m, quantidade) then Some((m, Necessario(entradas[0], m, quantidade)))
        else PrimeiraFalta(entradas[1..], materiais, quantidade)
  }

  /** Every entry whose material is catalogued has enough of it: stock equal to the need is enough. */
  ghost predicate EstoqueSuficiente(entradas: seq<MaterialProduto>, materiais: seq<Material>, quantidade: int)
  {
    forall i :: 0 <= i < |entradas| && BuscarMaterial(materiais, entradas[i].materialId).Some? ==>
      BuscarMaterial(materiais, entradas[i].materialId).value.estoqueAtual >= Necessario(entradas[i], BuscarMaterial(materiais, entradas[i].materialId).value, quantidade)
  }

  /**
   * Validation passes exactly when every catalogued entry has enough stock; when
   * it fails it names an entry's material that is short, with that entry's need.
   */
  lemma {:induction false} PrimeiraFaltaCorreta(entradas: seq<MaterialProduto>, materiais: seq<Material>, quantidade: int)
    ensures PrimeiraFalta(entradas, materiais, quantidade).None? <==> EstoqueSuficiente(entradas, materiais, quantidade)
    ensures PrimeiraFalta(entradas, materiais, quantidade).Some? ==>
      var (m, n) := PrimeiraFalta(entradas, materiais, quantidade).value;
      m.estoqueAtual < n &&
      exists i :: 0 <= i < |entradas| && BuscarMaterial(materiais, entradas[i].materialId) == Some(m) &&
        n == Necessario(entradas[i], m, quantidade)
  {
    if entradas != [] {
      var resto := entradas[1..];
      PrimeiraFaltaCorreta(resto, materiais, quantidade);
      assert forall i :: 1 <= i < |entradas| ==> entradas[i] == resto[i - 1];
      var r := PrimeiraFalta(entradas, materiais, quantidade);
      if r.Some? && r != PrimeiraFalta(resto, materiais, quantidade) {
        assert BuscarMaterial(materiais, entradas[0].materialId) == Some(r.value.0);
      } else if r.Some? {
        var (m, n) := r.value;
        var i :| 0 <= i < |resto| && BuscarMaterial(materiais, resto[i].materialId) == Some(m) &&
          n == Necessario(resto[i], m, quantidade);
        assert entradas[i + 1] == resto[i];
      }
    }
  }

  /** `produto.materiais.find(m => m.materialId === material.id)`: the entry the decrement uses for a material. */
  function BuscarEntrada(entradas: seq<MaterialProduto>, materialId: string): (r: Option<MaterialProduto>)
    ensures r.None? <==> forall k :: 0 <= k < |entradas| ==> entradas[k].materialId != materialId
    ensures r.Some? ==> r.value.materialId == materialId
    ensures r.Some? ==> exists k :: 0 <= k < |entradas| && entradas[k] == r.value && forall j :: 0 <= j < k ==> entradas[j].materialId != materialId
  {
    if entradas == [] then None
    else if entradas[0].materialId == materialId then Some(entradas[0])
    else
      var r := BuscarEntrada(entradas[1..], materialId);
      assert r.Some? ==> exists k :: 1 <= k < |entradas| && entradas[k] == r.value && forall j :: 0 <= j < k ==> entradas[j].materialId != materialId by {
        if r.Some? {
          var k :| 0 <= k < |entradas| - 1 && entradas[1..][k] == r.value &&
            forall j :: 0 <= j < k ==> entradas[1..][j].materialId != materialId;
          assert entradas[k + 1] == r.value;
          assert forall j :: 1 <= j < k + 1 ==> entradas[j] == entradas[1..][j - 1];
        }
      }
      r
  }

  /** The `map` callback of the decrement: a material with an entry loses that entry's need, any other is kept. */
  function Baixar(m: Material, entradas: seq<MaterialProduto>, quantidade: int): (r: Material)
    ensures r == m.(estoqueAtual := r.estoqueAtual)
    ensures BuscarEntrada(entradas, m.id).None? ==> r == m
  {
    match BuscarEntrada(entradas, m.id)
    case None => m
    case Some(mp) => m.(estoqueAtual := m.estoqueAtual - Necessario(mp, m, quantidade))
  }

  /** `materiaisAtualizados`: every material through `Baixar`, in the same order. */
  function BaixarEstoque(materiais: seq<Material>, entradas: seq<MaterialProduto>, quantidade: int): (r: seq<Material>)
    ensures |r| == |materiais|
    ensures forall i :: 0 <= i < |materiais| ==> r[i] == Baixar(materiais[i], entradas, quantidade)
  {
    seq(|materiais|, i requires 0 <= i < |materiais| => Baixar(materiais[i], entradas, quantidade))
  }

  /** The record the source builds, with the cost taken on the stock as it was before the decrement. */
  function NovaConfeccao(produto: Produto, materiais: seq<Material>, quantidade: int, id: string, data: string): (r: Confeccao)
    ensures r.id == id && r.dataConfeccao == data
    ensures r.produtoId == produto.id && r.produtoNome == produto.nome && r.materiaisUsados == produto.materiais
    ensures r.quantidadeConfeccionada == quantidade
    ensures quantidade == 0 ==> r.custoTotal == CalcularCustoProduto(produto.(quantidadeProduzir := Some(1)), materiais)
  {
    Confeccao(id, produto.id, produto.nome, quantidade,
      CalcularCustoProduto(produto.(quantidadeProduzir := Some(quantidade)), materiais),
      produto.materiais, data)
  }

  /**
   * `handleConfirmarProducao`. `produtos` is the page's product list, `quantidade`
   * the parsed quantity field, `novoId` and `agora` stand for `crypto.randomUUID()`
   * and `new Date().toISOString()`.
   */
  method ConfirmarProducao(st: StorageService, produtos: seq<Produto>, produtoSelecionado: string,
                           quantidade: int, novoId: string, agora: string) returns (res: Resultado)
    modifies st
    ensures BuscarProduto(produtos, produtoSelecionado).None? ==>
      res == ProdutoNaoEncontrado && unchanged(st)
    ensures BuscarProduto(produtos, produtoSelecionado).Some? ==>
      var p := BuscarProduto(produtos, produtoSelecionado).value;
      match PrimeiraFalta(p.materiais, old(st.materiais), quantidade)
      case Some((m, n)) => res == EstoqueInsuficiente(m, n) && unchanged(st)
      case None =>
        var c := NovaConfeccao(p, old(st.materiais), quantidade, novoId, agora);
        && res == Registrada(c)
        && st.materiais == BaixarEstoque(old(st.materiais), p.materiais, quantidade)
        && st.confeccoes == [c] + old(st.confeccoes)
        && st.produtos == old(st.produtos)
  {
    var produto := BuscarProduto(produtos, produtoSelecionado);
    if produto.None? {
      return ProdutoNaoEncontrado;
    }
    var p := produto.value;
    var materiais := st.GetMateriais();

    var falta := VerificarEstoque(p.materiais, materiais, quantidade);
    if falta.Some? {
      return EstoqueInsuficiente(falta.value.0, falta.value.1);
    }

    var materiaisAtualizados := BaixarMateriais(materiais, p.materiais, quantidade);
    st.SaveMateriais(materiaisAtualizados);

    var confeccao := Confeccao(novoId, p.id, p.nome, quantidade,
      CalcularCustoProduto(p.(quantidadeProduzir := Some(quantidade)), materiais),
      p.materiais, agora);
    st.AddConfeccao(confeccao);
    return Registrada(confeccao);
  }

  /**
   * The `for ... of produto.materiais` validation loop: stops at the first entry
   * whose catalogued material has less stock than it needs.
   */
  method VerificarEstoque(entradas: seq<MaterialProduto>, materiais: seq<Material>, quantidade: int)
    returns (falta: Option<(Material, real)>)
    ensures falta == PrimeiraFalta(entradas, materiais, quantidade)
  {
    var i := 0;
    while i < |entradas|
      invariant 0 <= i <= |entradas|
      invariant PrimeiraFalta(entradas, materiais, quantidade) == PrimeiraFalta(entradas[i..], materiais, quantidade)
    {
      var mp := entradas[i];
      assert entradas[i..][1..] == entradas[i + 1..];
      var material := BuscarMaterial(materiais, mp.materialId);
      if material.Some? {
        var consumoTotal := CalcularConsumoMaterial(mp.quantidadeUsada * quantidade as real,
          material.value.unidadeUso, material.value.unidadeCompra);
        NecessarioEmCompra(mp, material.value, quantidade);
        if material.value.estoqueAtual < consumoTotal {
          return Some((material.value, consumoTotal));
        }
      }
      i := i + 1;
    }
    return None;
  }

  /** The `materiais.map(...)` decrement, built element by element. */
  method BaixarMateriais(materiais: seq<Material>, entradas: seq<MaterialProduto>, quantidade: int)
    returns (materiaisAtualizados: seq<Material>)
    ensures materiaisAtualizados == BaixarEstoque(materiais, entradas, quantidade)
  {
    materiaisAtualizados := [];
    var j := 0;
    while j < |materiais|
      invariant 0 <= j <= |materiais|
      invariant |materiaisAtualizados| == j
      invariant forall k :: 0 <= k < j ==> materiaisAtualizados[k] == Baixar(materiais[k], entradas, quantidade)
    {
      var material := materiais[j];
      var mp := BuscarEntrada(entradas, material.id);
      if mp.Some? {
        var consumoTotal := CalcularConsumoMaterial(mp.value.quantidadeUsada * quantidade as real,
          material.unidadeUso, material.unidadeCompra);
        materiaisAtualizados := materiaisAtualizados + [material.(estoqueAtual := material.estoqueAtual - consumoTotal)];
      } else {
        materiaisAtualizados := materiaisAtualizados + [material];
      }
      j := j + 1;
    }
  }

  // ---------------------------------------------------------------------------
  // What a successful confirmation does to the stock.
  // ---------------------------------------------------------------------------

  /**
   * The decrement keeps the list's length and order and every field but the
   * stock; a material no entry refers to keeps its stock, and one an entry
   * refers to loses that entry's need.
   */
  lemma BaixaSoDoReferenciado(materiais: seq<Material>, entradas: seq<MaterialProduto>, quantidade: int, i: int)
    requires 0 <= i < |materiais|
    ensures var r := BaixarEstoque(materiais, entradas, quantidade)[i];
      r.(estoqueAtual := materiais[i].estoqueAtual) == materiais[i]
    ensures (forall k :: 0 <= k < |entradas| ==> entradas[k].materialId != materiais[i].id) ==>
      BaixarEstoque(materiais, entradas, quantidade)[i] == materiais[i]
    ensures BuscarEntrada(entradas, materiais[i].id).Some? ==>
      BaixarEstoque(materiais, entradas, quantidade)[i].estoqueAtual ==
        materiais[i].estoqueAtual - Necessario(BuscarEntrada(entradas, materiais[i].id).value, materiais[i], quantidade)
  {
  }

  /** Without negative per-unit quantities the decrement never adds stock. */
  lemma BaixaNaoAumenta(materiais: seq<Material>, entradas: seq<MaterialProduto>, quantidade: int, i: int)
    requires 0 <= i < |materiais| && EntradasNaoNegativas(entradas) && quantidade >= 1
    ensures BaixarEstoque(materiais, entradas, quantidade)[i].estoqueAtual <= materiais[i].estoqueAtual
  {
    var m := materiais[i];
    match BuscarEntrada(entradas, m.id)
    case None =>
    case Some(mp) =>
      var k :| 0 <= k < |entradas| && entradas[k] == mp;
      NecessarioNaoNegativo(mp, m, quantidade);
  }

  lemma NecessarioNaoNegativo(mp: MaterialProduto, m: Material, quantidade: int)
    requires mp.quantidadeUsada >= 0.0 && quantidade >= 0
    ensures Necessario(mp, m, quantidade) >= 0.0
  {
    var v := mp.quantidadeUsada * quantidade as real;
    MultiplicaMonotono(0.0, mp.quantidadeUsada, quantidade as real);
    ConsumoMonotono(v, v, m.unidadeUso, m.unidadeCompra);
    NecessarioEmCompra(mp, m, quantidade);
  }

  /**
   * Stock never goes negative: once validation has passed, and with unique
   * material ids in the catalog, every material the product uses ends with a
   * non-negative stock, and every other material keeps its own.
   */
  lemma EstoqueNuncaNegativo(materiais: seq<Material>, entradas: seq<MaterialProduto>, quantidade: int, i: int)
    requires PrimeiraFalta(entradas, materiais, quantidade).None?
    requires IdsUnicos(materiais)
    requires 0 <= i < |materiais|
    ensures BuscarEntrada(entradas, materiais[i].id).Some? ==> BaixarEstoque(materiais, entradas, quantidade)[i].estoqueAtual >= 0.0
    ensures BuscarEntrada(entradas, materiais[i].id).None? ==> BaixarEstoque(materiais, entradas, quantidade)[i] == materiais[i]
  {
    PrimeiraFaltaCorreta(entradas, materiais, quantidade);
    var m := materiais[i];
    match BuscarEntrada(entradas, m.id)
    case None =>
    case Some(mp) =>
      var k :| 0 <= k < |entradas| && entradas[k] == mp;
      BuscarMaterialUnico(materiais, i);
      assert BuscarMaterial(materiais, entradas[k].materialId) == Some(m);
  }

  /** The recorded cost is the quantity times the cost of one unit, on the stock before the decrement. */
  lemma CustoRegistrado(produto: Produto, materiais: seq<Material>, quantidade: int, id: string, data: string)
    requires quantidade >= 1
    ensures NovaConfeccao(produto, materiais, quantidade, id, data).custoTotal ==
      quantidade as real * CalcularCustoProduto(produto.(quantidadeProduzir := Some(1)), materiais)
  {
    CustoLinear(produto.materiais, materiais, quantidade);
  }

  // ---------------------------------------------------------------------------
  // Agreement with calcularQuantidadeMaximaProduzir.
  // ---------------------------------------------------------------------------

  /**
   * Any quantity up to the maximum the costing screen shows passes validation,
   * for non-negative stock and per-unit quantities.
   */
  lemma MaximoEhViavel(produto: Produto, materiais: seq<Material>, quantidade: int)
    requires EstoquesNaoNegativos(materiais) && EntradasNaoNegativas(produto.materiais)
    requires 1 <= quantidade
    requires match CalcularQuantidadeMaximaProduzir(produto, materiais)
      case Limitado(n) => quantidade <= n
      case Ilimitado => true
    ensures PrimeiraFalta(produto.materiais, materiais, quantidade).None?
  {
    var es := produto.materiais;
    forall i | 0 <= i < |es| && BuscarMaterial(materiais, es[i].materialId).Some?
      ensures BuscarMaterial(materiais, es[i].materialId).value.estoqueAtual >=
        Necessario(es[i], BuscarMaterial(materiais, es[i].materialId).value, quantidade)
    {
      var m := BuscarMaterial(materiais, es[i].materialId).value;
      if es[i].quantidadeUsada == 0.0 {
        var j :| 0 <= j < |materiais| && materiais[j] == m;
        NadaNecessario(es[i], m, quantidade);
      } else {
        MaximoAbaixoDeCadaEntrada(produto, materiais, i);
        CabeAbaixoDoPiso(es[i], m, quantidade);
      }
    }
    PrimeiraFaltaCorreta(es, materiais, quantidade);
  }

  /** An entry with quantity 0 needs nothing. */
  lemma NadaNecessario(mp: MaterialProduto, m: Material, quantidade: int)
    requires mp.quantidadeUsada == 0.0
    ensures Necessario(mp, m, quantidade) == 0.0
  {
    assert mp.quantidadeUsada * quantidade as real == 0.0;
    ConsumoDeZero(m.unidadeUso, m.unidadeCompra);
  }

  /** A quantity within an entry's bound fits in its material's stock. */
  lemma CabeAbaixoDoPiso(mp: MaterialProduto, m: Material, quantidade: int)
    requires mp.quantidadeUsada > 0.0 && quantidade <= EstoqueSobreUso(m, mp.quantidadeUsada)
    ensures m.estoqueAtual >= Necessario(mp, m, quantidade)
  {
    AbaixoDoPisoCabe(m, mp.quantidadeUsada, quantidade);
    NecessarioEmCompra(mp, m, quantidade);
  }

  /**
   * The maximum is exact: one unit more than a finite maximum fails validation,
   * for a non-empty bill of materials with non-negative per-unit quantities.
   */
  lemma MaximoEhExato(produto: Produto, materiais: seq<Material>)
    requires EntradasNaoNegativas(produto.materiais) && produto.materiais != []
    requires CalcularQuantidadeMaximaProduzir(produto, materiais).Limitado?
    ensures PrimeiraFalta(produto.materiais, materiais, CalcularQuantidadeMaximaProduzir(produto, materiais).n + 1).Some?
  {
    var n := CalcularQuantidadeMaximaProduzir(produto, materiais).n;
    EntradaCritica(produto, materiais, n);
    PrimeiraFaltaCorreta(produto.materiais, materiais, n + 1);
  }

  /** The entry a finite maximum comes from runs short at one unit more. */
  lemma EntradaCritica(produto: Produto, materiais: seq<Material>, n: int)
    requires EntradasNaoNegativas(produto.materiais) && produto.materiais != []
    requires CalcularQuantidadeMaximaProduzir(produto, materiais) == Limitado(n)
    ensures !EstoqueSuficiente(produto.materiais, materiais, n + 1)
  {
    var es := produto.materiais;
    MaximoVemDeUmaEntrada(produto, materiais);
    var i :| 0 <= i < |es| && es[i].quantidadeUsada > 0.0 && BuscarMaterial(materiais, es[i].materialId).Some? &&
      EstoqueSobreUso(BuscarMaterial(materiais, es[i].materialId).value, es[i].quantidadeUsada) == n;
    var m := BuscarMaterial(materiais, es[i].materialId).value;
    FaltaAcimaDoPiso(es[i], m, n + 1);
  }

  /** One unit more than an entry's bound does not fit in its material's stock. */
  lemma FaltaAcimaDoPiso(mp: MaterialProduto, m: Material, k: int)
    requires mp.quantidadeUsada > 0.0 && k == EstoqueSobreUso(m, mp.quantidadeUsada) + 1
    ensures m.estoqueAtual < Necessario(mp, m, k)
  {
    AcimaDoPisoNaoCabe(m, mp.quantidadeUsada, k);
    NecessarioEmCompra(mp, m, k);
  }
}

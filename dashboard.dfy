/**
 * The figures of the dashboard (client/src/pages/Dashboard.tsx): the totals
 * over the production history and the stock, the count of materials with low
 * stock, the production grouped by product name, the ten materials with the
 * most money in stock, and the average cost per piece.
 */
module Dashboard {
  import opened Types
  import opened Lists
  import opened Helpers
  import opened Aritmetica

  // ---------------------------------------------------------------------------
  // The KPIs
  // ---------------------------------------------------------------------------

  function QuantidadeDe(c: Confeccao): real { c.quantidadeConfeccionada as real }
  function CustoDe(c: Confeccao): real { c.custoTotal }
  function ValorDe(m: Material): real { m.estoqueAtual * m.valorUnitario }

  /** `totalConfeccoes`: the pieces made over the whole history. */
  function TotalConfeccoes(cs: seq<Confeccao>): (r: real)
    ensures cs == [] ==> r == 0.0
  {
    SomaPor(cs, QuantidadeDe)
  }

  /** `custoTotalConfeccoes`: the cost of the whole history. */
  function CustoTotalConfeccoes(cs: seq<Confeccao>): (r: real)
    ensures cs == [] ==> r == 0.0
  {
    SomaPor(cs, CustoDe)
  }

  /** `valorEstoque`: what the stock of every material is worth. */
  function ValorEstoque(ms: seq<Material>): (r: real)
    ensures ms == [] ==> r == 0.0
  {
    SomaPor(ms, ValorDe)
  }

  /**
   * A record put in front of the history, as `addConfeccao` does, adds its
   * pieces and its cost to the two history totals.
   */
  lemma TotaisAoRegistrar(c: Confeccao, cs: seq<Confeccao>)
    ensures TotalConfeccoes([c] + cs) == c.quantidadeConfeccionada as real + TotalConfeccoes(cs)
    ensures CustoTotalConfeccoes([c] + cs) == c.custoTotal + CustoTotalConfeccoes(cs)
  {
    assert ([c] + cs)[1..] == cs;
    SomaPorFrente([c] + cs, QuantidadeDe);
    SomaPorFrente([c] + cs, CustoDe);
  }

  /** With no negative stock and no negative price the stock is worth 0 or more. */
  lemma ValorEstoqueNaoNegativo(ms: seq<Material>)
    requires forall i :: 0 <= i < |ms| ==> ms[i].estoqueAtual >= 0.0 && ms[i].valorUnitario >= 0.0
    ensures ValorEstoque(ms) >= 0.0
  {
    forall i | 0 <= i < |ms|
      ensures ValorDe(ms[i]) >= 0.0
    {
      MultiplicaMonotono(0.0, ms[i].estoqueAtual, ms[i].valorUnitario);
    }
    SomaPorNaoNegativa(ms, ValorDe);
  }

  /** The low-stock test: less than 20 in the purchase unit. */
  predicate BaixoEstoque(m: Material) { m.estoqueAtual < 20.0 }

  /**
   * `materiaisBaixoEstoque`: how many materials have low stock; 0 exactly when
   * none has.
   */
  function MateriaisBaixoEstoque(ms: seq<Material>): (r: nat)
    ensures r <= |ms|
    ensures r == 0 <==> forall k :: 0 <= k < |ms| ==> !BaixoEstoque(ms[k])
  {
    var baixos := Filter(ms, BaixoEstoque);
    assert forall k :: 0 <= k < |ms| && BaixoEstoque(ms[k]) ==> ms[k] in baixos;
    assert |baixos| > 0 ==> BaixoEstoque(baixos[0]) && baixos[0] in ms;
    |baixos|
  }

  /** The count over two lists of materials is the sum of the counts. */
  lemma BaixoEstoqueConcat(a: seq<Material>, b: seq<Material>)
    ensures MateriaisBaixoEstoque(a + b) == MateriaisBaixoEstoque(a) + MateriaisBaixoEstoque(b)
  {
    FilterAppend(a, b, BaixoEstoque);
  }

  // ---------------------------------------------------------------------------
  // confeccoesPorProduto
  // ---------------------------------------------------------------------------

  /** An entry of `confeccoesPorProduto`. */
  datatype Grupo = Grupo(nome: string, quantidade: real, custo: real)

  function QuantidadeDoGrupo(g: Grupo): real { g.quantidade }
  function CustoDoGrupo(g: Grupo): real { g.custo }

  /** `acc.find(item => item.nome === nome)`, as a position (-1 when absent). */
  function PosicaoDoGrupo(acc: seq<Grupo>, nome: string): (r: int)
    ensures -1 <= r < |acc|
    ensures r == -1 <==> forall k :: 0 <= k < |acc| ==> acc[k].nome != nome
    ensures r >= 0 ==> acc[r].nome == nome && forall k :: 0 <= k < r ==> acc[k].nome != nome
  {
    FindIndex(acc, (g: Grupo) => g.nome == nome)
  }

  /** One step of the `reduce`: add the record to its product's entry, or open a new entry at the end. */
  function Acumular(acc: seq<Grupo>, conf: Confeccao): (r: seq<Grupo>)
    ensures |r| == |acc| + 1 <==> forall k :: 0 <= k < |acc| ==> acc[k].nome != conf.produtoNome
    ensures |acc| <= |r| <= |acc| + 1
  {
    var i := PosicaoDoGrupo(acc, conf.produtoNome);
    if i == -1 then acc + [Grupo(conf.produtoNome, QuantidadeDe(conf), CustoDe(conf))]
    else acc[i := acc[i].(quantidade := acc[i].quantidade + QuantidadeDe(conf), custo := acc[i].custo + CustoDe(conf))]
  }

  /** The `reduce` from the empty list, record by record from the first. */
  function Agrupar(cs: seq<Confeccao>): seq<Grupo>
  {
    if cs == [] then [] else Acumular(Agrupar(cs[..|cs| - 1]), cs[|cs| - 1])
  }

  /** The position of the first record of a product, or -1 when it has none. */
  function PrimeiraVez(cs: seq<Confeccao>, nome: string): (r: int)
    ensures -1 <= r < |cs|
    ensures r == -1 <==> forall k :: 0 <= k < |cs| ==> cs[k].produtoNome != nome
    ensures r >= 0 ==> cs[r].produtoNome == nome && forall k :: 0 <= k < r ==> cs[k].produtoNome != nome
  {
    if cs == [] then -1
    else
      var j := PrimeiraVez(cs[..|cs| - 1], nome);
      if j != -1 then j
      else if cs[|cs| - 1].produtoNome == nome then |cs| - 1
      else -1
  }

  /** The pieces of the records of one product. */
  function QuantidadeDoProduto(cs: seq<Confeccao>, nome: string): real
  {
    if cs == [] then 0.0
    else QuantidadeDoProduto(cs[..|cs| - 1], nome) + (if cs[|cs| - 1].produtoNome == nome then QuantidadeDe(cs[|cs| - 1]) else 0.0)
  }

  /** The cost of the records of one product. */
  function CustoDoProduto(cs: seq<Confeccao>, nome: string): real
  {
    if cs == [] then 0.0
    else CustoDoProduto(cs[..|cs| - 1], nome) + (if cs[|cs| - 1].produtoNome == nome then CustoDe(cs[|cs| - 1]) else 0.0)
  }

  /** Entry names follow the order of each product's first record, so no name repeats. */
  ghost predicate EmOrdemDeAparicao(cs: seq<Confeccao>, grupos: seq<Grupo>)
  {
    forall i, j :: 0 <= i < j < |grupos| ==> PrimeiraVez(cs, grupos[i].nome) < PrimeiraVez(cs, grupos[j].nome)
  }

  /** Every entry names a product that has a record. */
  ghost predicate NomesPresentes(cs: seq<Confeccao>, grupos: seq<Grupo>)
  {
    forall i :: 0 <= i < |grupos| ==> PrimeiraVez(cs, grupos[i].nome) >= 0
  }

  /** Every record's product has an entry. */
  ghost predicate TodosAgrupados(cs: seq<Confeccao>, grupos: seq<Grupo>)
  {
    forall k :: 0 <= k < |cs| ==> PosicaoDoGrupo(grupos, cs[k].produtoNome) >= 0
  }

  /** Every entry holds the pieces and the cost of its product's records. */
  ghost predicate SomasPorNome(cs: seq<Confeccao>, grupos: seq<Grupo>)
  {
    forall i :: 0 <= i < |grupos| ==>
      grupos[i].quantidade == QuantidadeDoProduto(cs, grupos[i].nome) && grupos[i].custo == CustoDoProduto(cs, grupos[i].nome)
  }

  /**
   * `grupos` is what grouping `cs` by product name should give: one entry per
   * name that occurs and for no other, names in the order of their first
   * record, each entry holding the pieces and the cost of its product's records.
   */
  ghost predicate Agrupado(cs: seq<Confeccao>, grupos: seq<Grupo>)
  {
    EmOrdemDeAparicao(cs, grupos) && NomesPresentes(cs, grupos) && TodosAgrupados(cs, grupos) && SomasPorNome(cs, grupos)
  }

  /** A product with no record has no pieces and no cost. */
  lemma {:induction false} SemRegistros(cs: seq<Confeccao>, nome: string)
    requires forall k :: 0 <= k < |cs| ==> cs[k].produtoNome != nome
    ensures QuantidadeDoProduto(cs, nome) == 0.0 && CustoDoProduto(cs, nome) == 0.0
  {
    if cs != [] {
      SemRegistros(cs[..|cs| - 1], nome);
    }
  }

  lemma PrimeiraVezPasso(p: seq<Confeccao>, c: Confeccao, nome: string)
    ensures PrimeiraVez(p + [c], nome) ==
      if PrimeiraVez(p, nome) != -1 then PrimeiraVez(p, nome) else if c.produtoNome == nome then |p| else -1
  {
    assert (p + [c])[..|p|] == p;
  }

  lemma SomasPasso(p: seq<Confeccao>, c: Confeccao, nome: string)
    ensures QuantidadeDoProduto(p + [c], nome) == QuantidadeDoProduto(p, nome) + (if c.produtoNome == nome then QuantidadeDe(c) else 0.0)
    ensures CustoDoProduto(p + [c], nome) == CustoDoProduto(p, nome) + (if c.produtoNome == nome then CustoDe(c) else 0.0)
  {
    assert (p + [c])[..|p|] == p;
  }

  /** What `Acumular` does to an existing entry: it adds to entry `i` and leaves the others. */
  lemma AcumularExistente(acc: seq<Grupo>, c: Confeccao, i: int)
    requires i == PosicaoDoGrupo(acc, c.produtoNome) && i >= 0
    ensures |Acumular(acc, c)| == |acc|
    ensures forall j :: 0 <= j < |acc| ==> Acumular(acc, c)[j].nome == acc[j].nome
    ensures forall j :: 0 <= j < |acc| && j != i ==> Acumular(acc, c)[j] == acc[j]
    ensures Acumular(acc, c)[i].quantidade == acc[i].quantidade + QuantidadeDe(c)
    ensures Acumular(acc, c)[i].custo == acc[i].custo + CustoDe(c)
  {
  }

  /** Entries are named by their first record's product: two entries with the same name are one. */
  lemma NomeUnico(cs: seq<Confeccao>, grupos: seq<Grupo>, i: int, j: int)
    requires EmOrdemDeAparicao(cs, grupos)
    requires 0 <= i < |grupos| && 0 <= j < |grupos| && i != j
    ensures grupos[i].nome != grupos[j].nome
  {
    if i < j {
      assert PrimeiraVez(cs, grupos[i].nome) < PrimeiraVez(cs, grupos[j].nome);
    } else {
      assert PrimeiraVez(cs, grupos[j].nome) < PrimeiraVez(cs, grupos[i].nome);
    }
  }

  /** The step of the `reduce` for a record whose product already has an entry: the names and their order stay. */
  lemma OrdemExistente(p: seq<Confeccao>, c: Confeccao, acc: seq<Grupo>)
    requires EmOrdemDeAparicao(p, acc) && NomesPresentes(p, acc)
    requires PosicaoDoGrupo(acc, c.produtoNome) >= 0
    ensures EmOrdemDeAparicao(p + [c], Acumular(acc, c))
    ensures NomesPresentes(p + [c], Acumular(acc, c))
  {
    var r := Acumular(acc, c);
    AcumularExistente(acc, c, PosicaoDoGrupo(acc, c.produtoNome));
    forall j | 0 <= j < |r|
      ensures PrimeiraVez(p + [c], r[j].nome) == PrimeiraVez(p, acc[j].nome) >= 0
    {
      PrimeiraVezPasso(p, c, acc[j].nome);
    }
  }

  /** The step of the `reduce` for a record whose product already has an entry: every record still has its entry. */
  lemma TodosExistente(p: seq<Confeccao>, c: Confeccao, acc: seq<Grupo>)
    requires TodosAgrupados(p, acc)
    requires PosicaoDoGrupo(acc, c.produtoNome) >= 0
    ensures TodosAgrupados(p + [c], Acumular(acc, c))
  {
    var cs := p + [c];
    var i := PosicaoDoGrupo(acc, c.produtoNome);
    var r := Acumular(acc, c);
    AcumularExistente(acc, c, i);
    forall k | 0 <= k < |cs|
      ensures PosicaoDoGrupo(r, cs[k].produtoNome) >= 0
    {
      var g := if k < |p| then PosicaoDoGrupo(acc, p[k].produtoNome) else i;
      assert r[g].nome == cs[k].produtoNome;
    }
  }

  /** The step of the `reduce` for a record whose product already has an entry: that entry grows by the record. */
  lemma SomasExistente(p: seq<Confeccao>, c: Confeccao, acc: seq<Grupo>)
    requires EmOrdemDeAparicao(p, acc) && SomasPorNome(p, acc)
    requires PosicaoDoGrupo(acc, c.produtoNome) >= 0
    ensures SomasPorNome(p + [c], Acumular(acc, c))
  {
    var i := PosicaoDoGrupo(acc, c.produtoNome);
    var r := Acumular(acc, c);
    AcumularExistente(acc, c, i);
    forall j | 0 <= j < |r|
      ensures r[j].quantidade == QuantidadeDoProduto(p + [c], r[j].nome) && r[j].custo == CustoDoProduto(p + [c], r[j].nome)
    {
      SomasPasso(p, c, acc[j].nome);
      if j != i {
        NomeUnico(p, acc, i, j);
      }
    }
  }

  /** No record before `c` has its product when the entries, which cover every record, have none for it. */
  lemma ProdutoNovo(p: seq<Confeccao>, c: Confeccao, acc: seq<Grupo>)
    requires TodosAgrupados(p, acc)
    requires PosicaoDoGrupo(acc, c.produtoNome) == -1
    ensures forall k :: 0 <= k < |p| ==> p[k].produtoNome != c.produtoNome
    ensures PrimeiraVez(p + [c], c.produtoNome) == |p|
  {
    forall k | 0 <= k < |p|
      ensures p[k].produtoNome != c.produtoNome
    {
      var g := PosicaoDoGrupo(acc, p[k].produtoNome);
      assert acc[g].nome == p[k].produtoNome;
    }
    PrimeiraVezPasso(p, c, c.produtoNome);
  }

  /** The step of the `reduce` for the first record of a product: a new entry at the end, after the others in order. */
  lemma OrdemNovo(p: seq<Confeccao>, c: Confeccao, acc: seq<Grupo>)
    requires EmOrdemDeAparicao(p, acc) && NomesPresentes(p, acc) && TodosAgrupados(p, acc)
    requires PosicaoDoGrupo(acc, c.produtoNome) == -1
    ensures EmOrdemDeAparicao(p + [c], acc + [Grupo(c.produtoNome, QuantidadeDe(c), CustoDe(c))])
    ensures NomesPresentes(p + [c], acc + [Grupo(c.produtoNome, QuantidadeDe(c), CustoDe(c))])
  {
    var cs := p + [c];
    var r := acc + [Grupo(c.produtoNome, QuantidadeDe(c), CustoDe(c))];
    ProdutoNovo(p, c, acc);
    forall i, j | 0 <= i < j < |r|
      ensures 0 <= PrimeiraVez(cs, r[i].nome) < PrimeiraVez(cs, r[j].nome)
    {
      PrimeiraVezPasso(p, c, acc[i].nome);
      if j < |acc| {
        PrimeiraVezPasso(p, c, acc[j].nome);
      }
    }
    if r != [] {
      PrimeiraVezPasso(p, c, r[|r| - 1].nome);
    }
  }

  /** The step of the `reduce` for the first record of a product: every record, the new one too, has its entry. */
  lemma TodosNovo(p: seq<Confeccao>, c: Confeccao, acc: seq<Grupo>)
    requires TodosAgrupados(p, acc)
    requires PosicaoDoGrupo(acc, c.produtoNome) == -1
    ensures TodosAgrupados(p + [c], Acumular(acc, c))
  {
    var cs := p + [c];
    var r := Acumular(acc, c);
    assert r == acc + [Grupo(c.produtoNome, QuantidadeDe(c), CustoDe(c))];
    forall k | 0 <= k < |cs|
      ensures PosicaoDoGrupo(r, cs[k].produtoNome) >= 0
    {
      var g := if k < |p| then PosicaoDoGrupo(acc, p[k].produtoNome) else |acc|;
      assert r[g].nome == cs[k].produtoNome;
    }
  }

  /** The step of the `reduce` for the first record of a product: the new entry holds that record alone. */
  lemma SomasNovo(p: seq<Confeccao>, c: Confeccao, acc: seq<Grupo>)
    requires TodosAgrupados(p, acc) && SomasPorNome(p, acc)
    requires PosicaoDoGrupo(acc, c.produtoNome) == -1
    ensures SomasPorNome(p + [c], Acumular(acc, c))
  {
    var r := Acumular(acc, c);
    assert r == acc + [Grupo(c.produtoNome, QuantidadeDe(c), CustoDe(c))];
    ProdutoNovo(p, c, acc);
    SemRegistros(p, c.produtoNome);
    forall j | 0 <= j < |r|
      ensures r[j].quantidade == QuantidadeDoProduto(p + [c], r[j].nome) && r[j].custo == CustoDoProduto(p + [c], r[j].nome)
    {
      SomasPasso(p, c, r[j].nome);
    }
  }

  /** The `reduce` groups the history correctly. */
  lemma {:induction false} AgruparCorreto(cs: seq<Confeccao>)
    ensures Agrupado(cs, Agrupar(cs))
  {
    if cs != [] {
      var p := cs[..|cs| - 1];
      var c := cs[|cs| - 1];
      var acc := Agrupar(p);
      AgruparCorreto(p);
      assert cs == p + [c];
      if PosicaoDoGrupo(acc, c.produtoNome) == -1 {
        assert Acumular(acc, c) == acc + [Grupo(c.produtoNome, QuantidadeDe(c), CustoDe(c))];
        OrdemNovo(p, c, acc);
        TodosNovo(p, c, acc);
        SomasNovo(p, c, acc);
      } else {
        OrdemExistente(p, c, acc);
        TodosExistente(p, c, acc);
        SomasExistente(p, c, acc);
      }
    }
  }

  /** No two entries of the grouping share a name. */
  lemma NomesDistintos(cs: seq<Confeccao>)
    ensures forall i, j :: 0 <= i < j < |Agrupar(cs)| ==> Agrupar(cs)[i].nome != Agrupar(cs)[j].nome
  {
    AgruparCorreto(cs);
  }

  /** One step of the `reduce` adds the record's pieces and cost to the entries' sums. */
  lemma AcumularSoma(acc: seq<Grupo>, c: Confeccao)
    ensures SomaPor(Acumular(acc, c), QuantidadeDoGrupo) == SomaPor(acc, QuantidadeDoGrupo) + QuantidadeDe(c)
    ensures SomaPor(Acumular(acc, c), CustoDoGrupo) == SomaPor(acc, CustoDoGrupo) + CustoDe(c)
  {
    var i := PosicaoDoGrupo(acc, c.produtoNome);
    if i == -1 {
      var g := Grupo(c.produtoNome, QuantidadeDe(c), CustoDe(c));
      assert [g][..0] == [];
      SomaPorConcat(acc, [g], QuantidadeDoGrupo);
      SomaPorConcat(acc, [g], CustoDoGrupo);
    } else {
      var novo := acc[i].(quantidade := acc[i].quantidade + QuantidadeDe(c), custo := acc[i].custo + CustoDe(c));
      SomaPorAtualiza(acc, i, novo, QuantidadeDoGrupo);
      SomaPorAtualiza(acc, i, novo, CustoDoGrupo);
    }
  }

  /** The entries' pieces add up to `totalConfeccoes` and their costs to `custoTotalConfeccoes`. */
  lemma {:induction false} GruposSomamOsTotais(cs: seq<Confeccao>)
    ensures SomaPor(Agrupar(cs), QuantidadeDoGrupo) == TotalConfeccoes(cs)
    ensures SomaPor(Agrupar(cs), CustoDoGrupo) == CustoTotalConfeccoes(cs)
  {
    if cs != [] {
      var p := cs[..|cs| - 1];
      GruposSomamOsTotais(p);
      AcumularSoma(Agrupar(p), cs[|cs| - 1]);
    }
  }

  /**
   * `confeccoesPorProduto`: the `reduce` as a loop over the history, updating
   * the entry of each record's product or appending a new one.
   */
  method ConfeccoesPorProduto(cs: seq<Confeccao>) returns (acc: seq<Grupo>)
    ensures acc == Agrupar(cs)
    ensures Agrupado(cs, acc)
  {
    acc := [];
    var i := 0;
    while i < |cs|
      invariant 0 <= i <= |cs|
      invariant acc == Agrupar(cs[..i])
    {
      var conf := cs[i];
      var existing := PosicaoDoGrupo(acc, conf.produtoNome);
      if existing != -1 {
        acc := acc[existing := acc[existing].(quantidade := acc[existing].quantidade + conf.quantidadeConfeccionada as real,
                                              custo := acc[existing].custo + conf.custoTotal)];
      } else {
        acc := acc + [Grupo(conf.produtoNome, conf.quantidadeConfeccionada as real, conf.custoTotal)];
      }
      assert cs[..i + 1][..i] == cs[..i];
      assert acc == Acumular(Agrupar(cs[..i]), cs[i]);
      i := i + 1;
    }
    assert cs[..i] == cs;
    AgruparCorreto(cs);
  }

  // ---------------------------------------------------------------------------
  // estoqueValorMateriais
  // ---------------------------------------------------------------------------

  /** A bar of the stock-value chart. */
  datatype ItemEstoque = ItemEstoque(nome: string, valor: real)

  function ValorItem(x: ItemEstoque): real { x.valor }

  /** The `map`: the name cut to 15 characters plus `...`, and the stock value. */
  function ItemDe(m: Material): (r: ItemEstoque)
    ensures |m.nome| <= 15 ==> r.nome == m.nome
    ensures |m.nome| > 15 ==> r.nome == m.nome[..15] + "..."
    ensures r.valor == ValorDe(m)
  {
    ItemEstoque(TruncarTexto(m.nome, 15), ValorDe(m))
  }

  function Itens(ms: seq<Material>): (r: seq<ItemEstoque>)
    ensures |r| == |ms| && forall i :: 0 <= i < |ms| ==> r[i] == ItemDe(ms[i])
  {
    seq(|ms|, i requires 0 <= i < |ms| => ItemDe(ms[i]))
  }

  /**
   * `estoqueValorMateriais`: the items by value, largest first, cut to the
   * first ten. It holds ten items, or all of them when there are fewer; each
   * comes from a material; and no material left out is worth more than an item
   * kept.
   */
  function EstoqueValorMateriais(ms: seq<Material>): (r: seq<ItemEstoque>)
    ensures |r| == if |ms| < 10 then |ms| else 10
    ensures Ordenado(r, ValorItem, Desc)
    ensures multiset(r) <= multiset(Itens(ms))
    ensures forall k :: 0 <= k < |ms| && ItemDe(ms[k]) !in r ==>
      forall i :: 0 <= i < |r| ==> r[i].valor >= ValorDe(ms[k])
  {
    var todos := Itens(ms);
    var ordenados := OrdenarPor(todos, ValorItem, Desc);
    var n := if |ordenados| < 10 then |ordenados| else 10;
    TopoOrdenado(todos, ordenados, n);
    ordenados[..n]
  }

  /**
   * The first `n` items of a sorted copy: sorted, taken from the list, and
   * worth at least as much as any item of the list left out.
   */
  lemma TopoOrdenado(todos: seq<ItemEstoque>, ordenados: seq<ItemEstoque>, n: nat)
    requires multiset(ordenados) == multiset(todos) && Ordenado(ordenados, ValorItem, Desc) && n <= |ordenados|
    ensures Ordenado(ordenados[..n], ValorItem, Desc)
    ensures multiset(ordenados[..n]) <= multiset(todos)
    ensures forall k :: 0 <= k < |todos| && todos[k] !in ordenados[..n] ==>
      forall i :: 0 <= i < n ==> ordenados[i].valor >= todos[k].valor
  {
    assert ordenados == ordenados[..n] + ordenados[n..];
    assert multiset(ordenados) == multiset(ordenados[..n]) + multiset(ordenados[n..]);
    forall k | 0 <= k < |todos| && todos[k] !in ordenados[..n]
      ensures forall i :: 0 <= i < n ==> ordenados[i].valor >= todos[k].valor
    {
      assert todos[k] in multiset(ordenados);
      var j :| 0 <= j < |ordenados| && ordenados[j] == todos[k];
      assert forall i :: 0 <= i < n ==> EmOrdem(ValorItem, Desc, ordenados[i], ordenados[j]);
    }
  }

  // ---------------------------------------------------------------------------
  // Average cost per piece
  // ---------------------------------------------------------------------------

  /**
   * The average cost per piece: the history's cost over its pieces, and 0
   * when no piece was made.
   */
  function CustoMedioPorPeca(cs: seq<Confeccao>): (r: real)
    ensures TotalConfeccoes(cs) > 0.0 ==> r * TotalConfeccoes(cs) == CustoTotalConfeccoes(cs)
    ensures TotalConfeccoes(cs) <= 0.0 ==> r == 0.0
  {
    var total := TotalConfeccoes(cs);
    if total > 0.0 then CustoTotalConfeccoes(cs) / total else 0.0
  }
}

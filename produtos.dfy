/**
 * The product form (client/src/pages/Produtos.tsx): the list of selected
 * bill-of-materials entries the form edits through its checkboxes and quantity
 * fields, and the guard and store call of its submit handler.
 */
module Produtos {
  import opened Types
  import opened Lists
  import opened Storage
  import opened Confeccoes

  /** The key `removerMaterial` filters on. */
  function IdEntrada(e: MaterialProduto): string { e.materialId }

  /** No two entries of a bill of materials name the same material. */
  ghost predicate EntradasUnicas(entradas: seq<MaterialProduto>)
  {
    forall i, j :: 0 <= i < j < |entradas| ==> entradas[i].materialId != entradas[j].materialId
  }

  /** The `map` branch of `adicionarMaterial`: every entry for the material takes the new quantity. */
  function TrocarQuantidade(selecionados: seq<MaterialProduto>, materialId: string, quantidade: real): (r: seq<MaterialProduto>)
    ensures |r| == |selecionados|
    ensures forall i :: 0 <= i < |r| ==> r[i].materialId == selecionados[i].materialId
    ensures forall i :: 0 <= i < |r| && selecionados[i].materialId != materialId ==> r[i] == selecionados[i]
    ensures forall i :: 0 <= i < |r| && selecionados[i].materialId == materialId ==> r[i].quantidadeUsada == quantidade
  {
    seq(|selecionados|, i requires 0 <= i < |selecionados| =>
      if selecionados[i].materialId == materialId then selecionados[i].(quantidadeUsada := quantidade)
      else selecionados[i])
  }

  /**
   * `adicionarMaterial`: a material already selected gets the new quantity in
   * place; a new one is appended at the end.
   */
  function AdicionarMaterial(selecionados: seq<MaterialProduto>, materialId: string, quantidade: real): (r: seq<MaterialProduto>)
    ensures BuscarEntrada(selecionados, materialId).Some? ==> |r| == |selecionados|
    ensures BuscarEntrada(selecionados, materialId).None? ==>
      |r| == |selecionados| + 1 && r[..|selecionados|] == selecionados
    ensures forall i :: 0 <= i < |selecionados| && selecionados[i].materialId != materialId ==> r[i] == selecionados[i]
  {
    if BuscarEntrada(selecionados, materialId).Some? then TrocarQuantidade(selecionados, materialId, quantidade)
    else selecionados + [MaterialProduto(materialId, quantidade)]
  }

  /** `removerMaterial`: every entry for the material goes, the others keep their order. */
  function RemoverMaterial(selecionados: seq<MaterialProduto>, materialId: string): (r: seq<MaterialProduto>)
    ensures BuscarEntrada(r, materialId).None?
    ensures forall k :: 0 <= k < |selecionados| && selecionados[k].materialId != materialId ==> selecionados[k] in r
    ensures forall k :: 0 <= k < |r| ==> r[k] in selecionados
  {
    Excluir(selecionados, materialId, IdEntrada)
  }

  /**
   * After `adicionarMaterial` the material is selected with exactly the given
   * quantity, whether it was new or already there.
   */
  lemma AdicionarEncontra(selecionados: seq<MaterialProduto>, materialId: string, quantidade: real)
    ensures BuscarEntrada(AdicionarMaterial(selecionados, materialId, quantidade), materialId) ==
      Some(MaterialProduto(materialId, quantidade))
  {
    var r := AdicionarMaterial(selecionados, materialId, quantidade);
    var e := BuscarEntrada(r, materialId);
    if BuscarEntrada(selecionados, materialId).None? {
      assert r[|selecionados|].materialId == materialId;
      var k :| 0 <= k < |r| && r[k] == e.value;
      assert k == |selecionados|;
    } else {
      var j :| 0 <= j < |selecionados| && selecionados[j] == BuscarEntrada(selecionados, materialId).value;
      assert r[j].materialId == materialId;
    }
  }

  /** A selection without repeated materials stays so after `adicionarMaterial`. */
  lemma AdicionarPreservaUnicidade(selecionados: seq<MaterialProduto>, materialId: string, quantidade: real)
    requires EntradasUnicas(selecionados)
    ensures EntradasUnicas(AdicionarMaterial(selecionados, materialId, quantidade))
  {
    var r := AdicionarMaterial(selecionados, materialId, quantidade);
    if BuscarEntrada(selecionados, materialId).None? {
      forall i, j | 0 <= i < j < |r|
        ensures r[i].materialId != r[j].materialId
      {
        if j == |selecionados| {
          assert r[i] == selecionados[i];
        } else {
          assert r[i] == selecionados[i] && r[j] == selecionados[j];
        }
      }
    }
  }

  /** Removing keeps a selection without repeats free of repeats. */
  lemma {:induction false} RemoverPreservaUnicidade(selecionados: seq<MaterialProduto>, materialId: string)
    requires EntradasUnicas(selecionados)
    ensures EntradasUnicas(RemoverMaterial(selecionados, materialId))
  {
    if selecionados != [] {
      var cauda := selecionados[1..];
      RemoverPreservaUnicidade(cauda, materialId);
      var resto := RemoverMaterial(cauda, materialId);
      forall k | 0 <= k < |resto|
        ensures resto[k].materialId != selecionados[0].materialId
      {
        var j :| 0 <= j < |cauda| && cauda[j] == resto[k];
      }
    }
  }

  /** Removing after changing a quantity is removing from the list as it was. */
  lemma {:induction false} RemoverAposTrocar(selecionados: seq<MaterialProduto>, materialId: string, quantidade: real)
    ensures RemoverMaterial(TrocarQuantidade(selecionados, materialId, quantidade), materialId) ==
      RemoverMaterial(selecionados, materialId)
  {
    if selecionados != [] {
      var t := TrocarQuantidade(selecionados, materialId, quantidade);
      assert t[1..] == TrocarQuantidade(selecionados[1..], materialId, quantidade);
      RemoverAposTrocar(selecionados[1..], materialId, quantidade);
    }
  }

  /**
   * Unchecking after checking: removing a material right after adding it gives
   * the same list as removing it straight away, and the list as it was when the
   * material had not been selected.
   */
  lemma RemoverDesfazAdicionar(selecionados: seq<MaterialProduto>, materialId: string, quantidade: real)
    ensures RemoverMaterial(AdicionarMaterial(selecionados, materialId, quantidade), materialId) ==
      RemoverMaterial(selecionados, materialId)
    ensures BuscarEntrada(selecionados, materialId).None? ==>
      RemoverMaterial(AdicionarMaterial(selecionados, materialId, quantidade), materialId) == selecionados
  {
    var x := MaterialProduto(materialId, quantidade);
    if BuscarEntrada(selecionados, materialId).Some? {
      RemoverAposTrocar(selecionados, materialId, quantidade);
    } else {
      ExcluirConcat(selecionados, [x], materialId, IdEntrada);
      assert Excluir([x], materialId, IdEntrada) == [];
      ExcluirAusente(selecionados, materialId, IdEntrada);
    }
  }

  /**
   * A checkbox of the material list: checking adds the material with quantity
   * 1, unchecking removes it.
   */
  function AlternarMaterial(selecionados: seq<MaterialProduto>, materialId: string, marcado: bool): (r: seq<MaterialProduto>)
    ensures marcado ==> BuscarEntrada(r, materialId) == Some(MaterialProduto(materialId, 1.0))
    ensures !marcado ==> BuscarEntrada(r, materialId).None?
  {
    AdicionarEncontra(selecionados, materialId, 1.0);
    if marcado then AdicionarMaterial(selecionados, materialId, 1.0)
    else RemoverMaterial(selecionados, materialId)
  }

  /** How a submit ends: refused for an empty bill of materials, or the product stored. */
  datatype Envio = SemMateriais | Salvo(produto: Produto)

  /** `editando` is truthy: an id is being edited (the empty string counts as none, as in JavaScript). */
  predicate Editando(editando: Option<string>)
  {
    editando.Some? && editando.value != ""
  }

  /**
   * `handleSubmit`. `editando` is the id of the product being edited, if any;
   * `novoId` stands for `crypto.randomUUID()`; `quantidadeProduzir` is the
   * parsed quantity field. An empty selection is refused before anything is
   * stored; otherwise an edited product replaces its old version and a new one
   * is appended.
   */
  method SalvarProduto(st: StorageService, editando: Option<string>, nome: string, quantidadeProduzir: Option<int>,
                       selecionados: seq<MaterialProduto>, novoId: string) returns (r: Envio)
    modifies st
    ensures selecionados == [] ==> r == SemMateriais && unchanged(st)
    ensures selecionados != [] ==>
      && r.Salvo?
      && r.produto == Produto(if Editando(editando) then editando.value else novoId, nome, selecionados, quantidadeProduzir)
      && (Editando(editando) ==> st.produtos == Atualizar(old(st.produtos), r.produto, IdProduto))
      && (!Editando(editando) ==> st.produtos == old(st.produtos) + [r.produto])
      && st.materiais == old(st.materiais) && st.confeccoes == old(st.confeccoes)
  {
    if |selecionados| == 0 {
      return SemMateriais;
    }
    var id := if Editando(editando) then editando.value else novoId;
    var produto := Produto(id, nome, selecionados, quantidadeProduzir);
    if Editando(editando) {
      st.UpdateProduto(produto);
    } else {
      st.AddProduto(produto);
    }
    return Salvo(produto);
  }
}

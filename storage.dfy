/**
 * The storage service (client/src/services/storage.ts). Each list lives under
 * its own key in the browser's storage; here the three stored lists are fields
 * of a class, and every operation reads a list, changes it and writes it back,
 * as the source does.
 */
module Storage {
  import opened Types
  import opened Lists

  /** The id of a material, of a product and of a production record. */
  function IdMaterial(m: Material): string { m.id }
  function IdProduto(p: Produto): string { p.id }
  function IdConfeccao(c: Confeccao): string { c.id }

  /**
   * `findIndex` by id, then `xs[index] = x` when found: the first element with
   * the id of `x` is replaced and nothing else changes.
   */
  function Atualizar<T>(xs: seq<T>, x: T, chave: T -> string): (r: seq<T>)
    ensures |r| == |xs|
    ensures (forall k :: 0 <= k < |xs| ==> chave(xs[k]) != chave(x)) ==> r == xs
    ensures forall i :: 0 <= i < |xs| && chave(xs[i]) == chave(x) && (forall j :: 0 <= j < i ==> chave(xs[j]) != chave(x)) ==>
      r == xs[i := x]
  {
    var i := FindIndex(xs, (y: T) => chave(y) == chave(x));
    if i == -1 then xs else xs[i := x]
  }

  /** `filter(y => y.id !== id)`: every element with that id is removed. */
  function Excluir<T>(xs: seq<T>, id: string, chave: T -> string): (r: seq<T>)
    ensures |r| <= |xs|
    ensures forall k :: 0 <= k < |r| ==> chave(r[k]) != id && r[k] in xs
    ensures forall k :: 0 <= k < |xs| && chave(xs[k]) != id ==> xs[k] in r
  {
    Filter(xs, (y: T) => chave(y) != id)
  }

  /** Replacement keeps every id where it was. */
  lemma AtualizarMantemIds<T>(xs: seq<T>, x: T, chave: T -> string)
    ensures forall k :: 0 <= k < |xs| ==> chave(Atualizar(xs, x, chave)[k]) == chave(xs[k])
  {
  }

  /** Replacing with the same element twice is replacing it once. */
  lemma AtualizarIdempotente<T>(xs: seq<T>, x: T, chave: T -> string)
    ensures Atualizar(Atualizar(xs, x, chave), x, chave) == Atualizar(xs, x, chave)
  {
    var i := FindIndex(xs, (y: T) => chave(y) == chave(x));
    if i != -1 {
      var ys := xs[i := x];
      assert forall j :: 0 <= j < i ==> chave(ys[j]) != chave(x);
      assert ys[i := x] == ys;
    }
  }

  /** After a replacement the element is found under its id. */
  lemma AtualizarEncontra<T>(xs: seq<T>, x: T, chave: T -> string)
    requires exists k :: 0 <= k < |xs| && chave(xs[k]) == chave(x)
    ensures x in Atualizar(xs, x, chave)
  {
    var i := FindIndex(xs, (y: T) => chave(y) == chave(x));
    assert Atualizar(xs, x, chave)[i] == x;
  }

  /** Deletion keeps the remaining elements in their order: it distributes over concatenation. */
  lemma ExcluirConcat<T>(a: seq<T>, b: seq<T>, id: string, chave: T -> string)
    ensures Excluir(a + b, id, chave) == Excluir(a, id, chave) + Excluir(b, id, chave)
  {
    FilterAppend(a, b, (y: T) => chave(y) != id);
  }

  /** Deleting an id nobody has changes nothing. */
  lemma ExcluirAusente<T>(xs: seq<T>, id: string, chave: T -> string)
    requires forall k :: 0 <= k < |xs| ==> chave(xs[k]) != id
    ensures Excluir(xs, id, chave) == xs
  {
    FilterKeepsAll(xs, (y: T) => chave(y) != id);
  }

  /** Deleting twice is deleting once. */
  lemma ExcluirIdempotente<T>(xs: seq<T>, id: string, chave: T -> string)
    ensures Excluir(Excluir(xs, id, chave), id, chave) == Excluir(xs, id, chave)
  {
    ExcluirAusente(Excluir(xs, id, chave), id, chave);
  }

  /** Deleting what was just appended under a fresh id gives back the list. */
  lemma ExcluirDesfazAdicionar<T>(xs: seq<T>, x: T, chave: T -> string)
    requires forall k :: 0 <= k < |xs| ==> chave(xs[k]) != chave(x)
    ensures Excluir(xs + [x], chave(x), chave) == xs
  {
    ExcluirConcat(xs, [x], chave(x), chave);
    ExcluirAusente(xs, chave(x), chave);
    assert Excluir([x], chave(x), chave) == [];
  }

  /** `storageService`: the three lists it keeps under the keys `materiais`, `produtos` and `confeccoes`. */
  class StorageService {
    var materiais: seq<Material>
    var produtos: seq<Produto>
    var confeccoes: seq<Confeccao>

    /** Nothing has been saved yet: every `get` gives the empty list. */
    constructor()
      ensures materiais == [] && produtos == [] && confeccoes == []
    {
      materiais := [];
      produtos := [];
      confeccoes := [];
    }

    /** `getMateriais`: the list last saved. */
    method GetMateriais() returns (r: seq<Material>)
      ensures r == materiais
    {
      r := materiais;
    }

    /** `saveMateriais`: overwrites the stored materials and nothing else. */
    method SaveMateriais(ms: seq<Material>)
      modifies this
      ensures materiais == ms
      ensures produtos == old(produtos) && confeccoes == old(confeccoes)
    {
      materiais := ms;
    }

    /** `addMaterial`: `push` at the end. */
    method AddMaterial(m: Material)
      modifies this
      ensures materiais == old(materiais) + [m]
      ensures produtos == old(produtos) && confeccoes == old(confeccoes)
    {
      var ms := GetMateriais();
      ms := ms + [m];
      SaveMateriais(ms);
    }

    /** `updateMaterial`: replaces the first material with the same id; with no such material nothing is written. */
    method UpdateMaterial(m: Material)
      modifies this
      ensures materiais == Atualizar(old(materiais), m, IdMaterial)
      ensures produtos == old(produtos) && confeccoes == old(confeccoes)
    {
      var ms := GetMateriais();
      var index := FindIndex(ms, (x: Material) => x.id == m.id);
      if index != -1 {
        ms := ms[index := m];
        SaveMateriais(ms);
      }
    }

    /** `deleteMaterial`: keeps the materials with a different id. */
    method DeleteMaterial(id: string)
      modifies this
      ensures materiais == Excluir(old(materiais), id, IdMaterial)
      ensures produtos == old(produtos) && confeccoes == old(confeccoes)
    {
      var ms := GetMateriais();
      ms := Excluir(ms, id, IdMaterial);
      SaveMateriais(ms);
    }

    /** `getProdutos`: the list last saved. */
    method GetProdutos() returns (r: seq<Produto>)
      ensures r == produtos
    {
      r := produtos;
    }

    /** `saveProdutos`: overwrites the stored products and nothing else. */
    method SaveProdutos(ps: seq<Produto>)
      modifies this
      ensures produtos == ps
      ensures materiais == old(materiais) && confeccoes == old(confeccoes)
    {
      produtos := ps;
    }

    /** `addProduto`: `push` at the end. */
    method AddProduto(p: Produto)
      modifies this
      ensures produtos == old(produtos) + [p]
      ensures materiais == old(materiais) && confeccoes == old(confeccoes)
    {
      var ps := GetProdutos();
      ps := ps + [p];
      SaveProdutos(ps);
    }

    /** `updateProduto`: replaces the first product with the same id; with no such product nothing is written. */
    method UpdateProduto(p: Produto)
      modifies this
      ensures produtos == Atualizar(old(produtos), p, IdProduto)
      ensures materiais == old(materiais) && confeccoes == old(confeccoes)
    {
      var ps := GetProdutos();
      var index := FindIndex(ps, (x: Produto) => x.id == p.id);
      if index != -1 {
        ps := ps[index := p];
        SaveProdutos(ps);
      }
    }

    /** `deleteProduto`: keeps the products with a different id. */
    method DeleteProduto(id: string)
      modifies this
      ensures produtos == Excluir(old(produtos), id, IdProduto)
      ensures materiais == old(materiais) && confeccoes == old(confeccoes)
    {
      var ps := GetProdutos();
      ps := Excluir(ps, id, IdProduto);
      SaveProdutos(ps);
    }

    /** `getConfeccoes`: the list last saved. */
    method GetConfeccoes() returns (r: seq<Confeccao>)
      ensures r == confeccoes
    {
      r := confeccoes;
    }

    /** `saveConfeccoes`: overwrites the stored history and nothing else. */
    method SaveConfeccoes(cs: seq<Confeccao>)
      modifies this
      ensures confeccoes == cs
      ensures materiais == old(materiais) && produtos == old(produtos)
    {
      confeccoes := cs;
    }

    /** `addConfeccao`: `unshift`, so the newest record comes first. */
    method AddConfeccao(c: Confeccao)
      modifies this
      ensures confeccoes == [c] + old(confeccoes)
      ensures materiais == old(materiais) && produtos == old(produtos)
    {
      var cs := GetConfeccoes();
      cs := [c] + cs;
      SaveConfeccoes(cs);
    }

    /** `deleteConfeccao`: keeps the records with a different id. */
    method DeleteConfeccao(id: string)
      modifies this
      ensures confeccoes == Excluir(old(confeccoes), id, IdConfeccao)
      ensures materiais == old(materiais) && produtos == old(produtos)
    {
      var cs := GetConfeccoes();
      cs := Excluir(cs, id, IdConfeccao);
      SaveConfeccoes(cs);
    }
  }
}

/**
 * The records the inventory tracker stores (client/src/types/index.ts).
 * Quantities and prices are JavaScript numbers in the source; here they are
 * exact `real`s. Production quantities come from `parseInt` and are `int`s.
 */
module Types {

  datatype Option<+T> = None | Some(value: T)

  /** A raw material, stocked and priced in its purchase unit (`unidadeCompra`). */
  datatype Material = Material(
    id: string,
    nome: string,
    unidadeCompra: string,
    unidadeUso: string,
    estoqueAtual: real,
    valorUnitario: real)

  /** One bill-of-materials entry: how much of a material one product unit uses, in the usage unit. */
  datatype MaterialProduto = MaterialProduto(materialId: string, quantidadeUsada: real)

  /**
   * A product and its bill of materials. `quantidadeProduzir` is optional in the
   * source; `None` also stands for the `NaN` that `parseInt` gives for an empty field.
   */
  datatype Produto = Produto(
    id: string,
    nome: string,
    materiais: seq<MaterialProduto>,
    quantidadeProduzir: Option<int>)

  /** An immutable production record with snapshots of the product name, its cost and its bill of materials. */
  datatype Confeccao = Confeccao(
    id: string,
    produtoId: string,
    produtoNome: string,
    quantidadeConfeccionada: int,
    custoTotal: real,
    materiaisUsados: seq<MaterialProduto>,
    dataConfeccao: string)
}

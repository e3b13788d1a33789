/**
 * The unit choices of the material form (client/src/pages/Materiais.tsx): the
 * purchase units it offers, the usage units each purchase unit allows, and the
 * usage unit the form switches to by itself when the purchase unit changes.
 * Labels are presentation only; units are their `value` strings.
 */
module Materiais {
  import opened Conversoes

  /** `unidadesCompra`. */
  const UnidadesCompra: seq<string> := ["metros", "unidades", "kg", "litros"]

  /** The pair the form starts with and returns to after `limparFormulario`. */
  const UnidadeCompraPadrao: string := "metros"
  const UnidadeUsoPadrao: string := "cm"

  /** The purchase units that have a smaller usage unit. */
  predicate TemSubunidade(unidadeCompra: string)
  {
    unidadeCompra == "metros" || unidadeCompra == "kg" || unidadeCompra == "litros"
  }

  /**
   * `getUnidadesUso`: a purchase unit with a smaller unit offers itself and that
   * unit; any other string offers only `unidades`.
   */
  function UnidadesUso(unidadeCompra: string): (r: seq<string>)
    ensures TemSubunidade(unidadeCompra) ==> |r| == 2 && r[0] == unidadeCompra
    ensures unidadeCompra == "metros" ==> r == ["metros", "cm"]
    ensures unidadeCompra == "kg" ==> r == ["kg", "gramas"]
    ensures unidadeCompra == "litros" ==> r == ["litros", "ml"]
    ensures !TemSubunidade(unidadeCompra) ==> r == ["unidades"]
  {
    if unidadeCompra == "metros" then ["metros", "cm"]
    else if unidadeCompra == "kg" then ["kg", "gramas"]
    else if unidadeCompra == "litros" then ["litros", "ml"]
    else ["unidades"]
  }

  /**
   * The purchase-unit `onChange`: the usage unit the form picks is always one
   * the new purchase unit offers, the smaller one when there is one.
   */
  function UnidadeUsoAutomatica(unidadeCompra: string): (r: string)
    ensures r in UnidadesUso(unidadeCompra)
    ensures TemSubunidade(unidadeCompra) ==> r == UnidadesUso(unidadeCompra)[1] && r != unidadeCompra
    ensures !TemSubunidade(unidadeCompra) ==> r == "unidades"
  {
    if unidadeCompra == "metros" then "cm"
    else if unidadeCompra == "kg" then "gramas"
    else if unidadeCompra == "litros" then "ml"
    else "unidades"
  }

  /** Each purchase unit the form offers is among its own usage units. */
  lemma CompraEntreUsos()
    ensures forall k :: 0 <= k < |UnidadesCompra| ==> UnidadesCompra[k] in UnidadesUso(UnidadesCompra[k])
  {
    forall k | 0 <= k < |UnidadesCompra|
      ensures UnidadesCompra[k] in UnidadesUso(UnidadesCompra[k])
    {
      var u := UnidadesCompra[k];
      assert UnidadesUso(u)[0] == u;
    }
  }

  /** The starting and reset pair is one the form itself offers and would pick. */
  lemma PadraoValido()
    ensures UnidadeCompraPadrao in UnidadesCompra
    ensures UnidadeUsoPadrao in UnidadesUso(UnidadeCompraPadrao)
    ensures UnidadeUsoPadrao == UnidadeUsoAutomatica(UnidadeCompraPadrao)
  {
  }

  /**
   * Every pair the form allows stays in one dimension, the purchase unit is a
   * base unit, and stock converts to the usage unit by a factor of 1, 100 or
   * 1000: 1 for the unit itself, 100 for centimetres, 1000 for grams and
   * millilitres.
   */
  lemma ParMesmaDimensao(unidadeCompra: string, unidadeUso: string, valor: real)
    requires unidadeCompra in UnidadesCompra && unidadeUso in UnidadesUso(unidadeCompra)
    ensures DimensaoDe(unidadeUso) == DimensaoDe(unidadeCompra)
    ensures Escala(unidadeCompra) == 1.0
    ensures unidadeUso == unidadeCompra ==> Escala(unidadeUso) == 1.0
    ensures unidadeUso != unidadeCompra ==> Escala(unidadeUso) == if unidadeCompra == "metros" then 100.0 else 1000.0
    ensures CalcularConsumoMaterial(valor, unidadeCompra, unidadeUso) == valor * Escala(unidadeUso)
  {
    if unidadeCompra == "metros" {
      ParMetros(unidadeUso);
    } else if unidadeCompra == "kg" {
      ParQuilos(unidadeUso);
    } else if unidadeCompra == "litros" {
      ParLitros(unidadeUso);
    } else {
      ParUnidades(unidadeCompra, unidadeUso);
    }
    ConsumoDeBase(valor, unidadeCompra, unidadeUso);
  }

  lemma ParUnidades(unidadeCompra: string, unidadeUso: string)
    requires unidadeCompra in UnidadesCompra && !TemSubunidade(unidadeCompra) && unidadeUso in UnidadesUso(unidadeCompra)
    ensures unidadeCompra == unidadeUso == "unidades"
    ensures Escala("unidades") == 1.0
  {
    UnidadesEhContagem();
  }

  lemma ParMetros(unidadeUso: string)
    requires unidadeUso == "metros" || unidadeUso == "cm"
    ensures DimensaoDe(unidadeUso) == DimensaoDe("metros") == Comprimento
    ensures Escala("metros") == 1.0
    ensures Escala(unidadeUso) == if unidadeUso == "metros" then 1.0 else 100.0
  {
    ReconheceMetros();
    ReconheceCentimetros();
  }

  lemma ParQuilos(unidadeUso: string)
    requires unidadeUso == "kg" || unidadeUso == "gramas"
    ensures DimensaoDe(unidadeUso) == DimensaoDe("kg") == Massa
    ensures Escala("kg") == 1.0
    ensures Escala(unidadeUso) == if unidadeUso == "kg" then 1.0 else 1000.0
  {
    ReconheceQuilos();
    ReconheceGramas();
  }

  lemma ParLitros(unidadeUso: string)
    requires unidadeUso == "litros" || unidadeUso == "ml"
    ensures DimensaoDe(unidadeUso) == DimensaoDe("litros") == Volume
    ensures Escala("litros") == 1.0
    ensures Escala(unidadeUso) == if unidadeUso == "litros" then 1.0 else 1000.0
  {
    ReconheceLitros();
    ReconheceMililitros();
  }
}

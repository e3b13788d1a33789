/**
 * Unit conversion (client/src/utils/conversoes.ts). Each physical dimension has
 * one base unit (metres, kilograms, litres); centimetres are a hundredth of a
 * metre, grams and millilitres a thousandth of their base. Unit names are matched
 * after lowercasing; any other name is a count and passes through unchanged.
 */
module Conversoes {
  import opened Aritmetica

  /** `toLowerCase` on one character, for the ASCII letters A to Z. */
  function LowerChar(c: char): char
  {
    if 'A' <= c <= 'Z' then (c as int + 32) as char else c
  }

  /** `unidade.toLowerCase()`, restricted to ASCII letters. */
  function Lower(s: string): (r: string)
    ensures |r| == |s|
    ensures forall i :: 0 <= i < |s| ==> r[i] == LowerChar(s[i])
  {
    if s == [] then [] else [LowerChar(s[0])] + Lower(s[1..])
  }

  /** Lowercasing an already lowercased name changes nothing. */
  lemma LowerIdempotent(s: string)
    ensures Lower(Lower(s)) == Lower(s)
  {
  }

  /** The units the conversions recognise, one constructor per pair of synonyms. */
  datatype Unidade = Metro | Centimetro | Quilo | Grama | Litro | Mililitro | Outra

  /** The names both conversions test, in the order the source tests them, with the unit each stands for. */
  const Sinonimos: seq<(string, Unidade)> := [
    ("metros", Metro), ("m", Metro),
    ("cm", Centimetro), ("centimetros", Centimetro),
    ("kg", Quilo), ("quilos", Quilo),
    ("gramas", Grama), ("g", Grama),
    ("litros", Litro), ("l", Litro),
    ("ml", Mililitro), ("mililitros", Mililitro)
  ]

  /** The first row of `tabela`, from row `i` on, whose name is `nome`, as a chain of `if (u === ...)` tests finds it. */
  function Procurar(tabela: seq<(string, Unidade)>, nome: string, i: nat): Unidade
    decreases |tabela| - i
  {
    if i >= |tabela| then Outra
    else if tabela[i].0 == nome then tabela[i].1
    else Procurar(tabela, nome, i + 1)
  }

  /** The unit a name stands for, after lowercasing it. */
  function Reconhecer(unidade: string): Unidade
  {
    Procurar(Sinonimos, Lower(unidade), 0)
  }

  /** A name without capitals is looked up as it is. */
  lemma ReconhecerMinusculo(unidade: string)
    requires forall i :: 0 <= i < |unidade| ==> !('A' <= unidade[i] <= 'Z')
    ensures Reconhecer(unidade) == Procurar(Sinonimos, unidade, 0)
  {
    LowerMinusculo(unidade);
  }

  // The names the material form offers, looked up one at a time.

  lemma ReconheceMetros()
    ensures Reconhecer("metros") == Metro
  {
    ReconhecerMinusculo("metros");
    assert Procurar(Sinonimos, "metros", 0) == Metro;
  }

  lemma ReconheceCentimetros()
    ensures Reconhecer("cm") == Centimetro
  {
    ReconhecerMinusculo("cm");
    assert Procurar(Sinonimos, "cm", 0) == Centimetro;
  }

  lemma ReconheceQuilos()
    ensures Reconhecer("kg") == Quilo
  {
    ReconhecerMinusculo("kg");
    assert Procurar(Sinonimos, "kg", 0) == Quilo;
  }

  lemma ReconheceGramas()
    ensures Reconhecer("gramas") == Grama
  {
    ReconhecerMinusculo("gramas");
    assert Procurar(Sinonimos, "gramas", 0) == Grama;
  }

  lemma ReconheceLitros()
    ensures Reconhecer("litros") == Litro
  {
    ReconhecerMinusculo("litros");
    assert Procurar(Sinonimos, "litros", 0) == Litro;
  }

  lemma ReconheceMililitros()
    ensures Reconhecer("ml") == Mililitro
  {
    ReconhecerMinusculo("ml");
    assert Procurar(Sinonimos, "ml", 0) == Mililitro;
  }

  /** Lowercasing a name without capitals gives the name back. */
  lemma LowerMinusculo(s: string)
    requires forall i :: 0 <= i < |s| ==> !('A' <= s[i] <= 'Z')
    ensures Lower(s) == s
  {
    forall i | 0 <= i < |s|
      ensures Lower(s)[i] == s[i]
    {
    }
  }

  /** `converterParaUnidadeBase`: a quantity in `unidade`, expressed in its dimension's base unit. */
  function ConverterParaUnidadeBase(valor: real, unidade: string): real
  {
    match Reconhecer(unidade)
    case Centimetro => valor / 100.0
    case Grama => valor / 1000.0
    case Mililitro => valor / 1000.0
    case _ => valor
  }

  /** `converterDeUnidadeBase`: a quantity in the base unit, expressed in `unidade`; base units and unknown names pass through. */
  function ConverterDeUnidadeBase(valor: real, unidade: string): real
  {
    match Reconhecer(unidade)
    case Centimetro => valor * 100.0
    case Grama => valor * 1000.0
    case Mililitro => valor * 1000.0
    case _ => valor
  }

  /** `calcularConsumoMaterial`: a quantity in the usage unit, expressed in the purchase unit. */
  function CalcularConsumoMaterial(quantidadeUso: real, unidadeUso: string, unidadeCompra: string): real
  {
    ConverterDeUnidadeBase(ConverterParaUnidadeBase(quantidadeUso, unidadeUso), unidadeCompra)
  }

  // ---------------------------------------------------------------------------
  // The synonym table.
  // ---------------------------------------------------------------------------

  /** The lookup finds the first row with the name. */
  lemma {:induction false} ProcurarEncontra(tabela: seq<(string, Unidade)>, nome: string, i: nat, k: int)
    requires i <= k < |tabela| && tabela[k].0 == nome
    requires forall j :: i <= j < k ==> tabela[j].0 != nome
    ensures Procurar(tabela, nome, i) == tabela[k].1
    decreases k - i
  {
    if i < k {
      ProcurarEncontra(tabela, nome, i + 1, k);
    }
  }

  /** When no row stands for "unrecognised", a name is unrecognised exactly when no row from `i` on has it. */
  lemma {:induction false} ProcurarAusente(tabela: seq<(string, Unidade)>, nome: string, i: nat)
    requires forall j :: 0 <= j < |tabela| ==> tabela[j].1 != Outra
    ensures Procurar(tabela, nome, i) == Outra <==> forall j :: i <= j < |tabela| ==> tabela[j].0 != nome
    decreases |tabela| - i
  {
    if i < |tabela| && tabela[i].0 != nome {
      ProcurarAusente(tabela, nome, i + 1);
    }
  }

  /** The dimension each unit measures; an unrecognised name is a count. */
  datatype Dimensao = Comprimento | Massa | Volume | Contagem

  function DimensaoDe(unidade: string): Dimensao
  {
    match Reconhecer(unidade)
    case Metro => Comprimento
    case Centimetro => Comprimento
    case Quilo => Massa
    case Grama => Massa
    case Litro => Volume
    case Mililitro => Volume
    case Outra => Contagem
  }

  /** How many of `unidade` make one base unit: 100 for centimetres, 1000 for grams and millilitres, otherwise 1. */
  function Escala(unidade: string): (k: real)
    ensures k == 1.0 || k == 100.0 || k == 1000.0
  {
    match Reconhecer(unidade)
    case Centimetro => 100.0
    case Grama => 1000.0
    case Mililitro => 1000.0
    case _ => 1.0
  }

  /** Going to the base unit divides by the unit's scale. */
  lemma ParaBaseSegueEscala(valor: real, unidade: string)
    ensures ConverterParaUnidadeBase(valor, unidade) == valor / Escala(unidade)
  {
  }

  /** Coming from the base unit multiplies by the unit's scale. */
  lemma DeBaseSegueEscala(valor: real, unidade: string)
    ensures ConverterDeUnidadeBase(valor, unidade) == valor * Escala(unidade)
  {
  }

  /** The consumption conversion multiplies by the purchase unit's scale and divides by the usage unit's. */
  lemma ConsumoSegueEscala(v: real, de: string, para: string)
    ensures CalcularConsumoMaterial(v, de, para) == v * Escala(para) / Escala(de)
  {
    ParaBaseSegueEscala(v, de);
    DeBaseSegueEscala(v / Escala(de), para);
    DivMul(v, Escala(de), Escala(para));
  }

  /** Out of a base unit, a quantity is just multiplied by the target's scale. */
  lemma ConsumoDeBase(v: real, de: string, para: string)
    requires Escala(de) == 1.0
    ensures CalcularConsumoMaterial(v, de, para) == v * Escala(para)
  {
    ConsumoSegueEscala(v, de, para);
  }

  // ---------------------------------------------------------------------------
  // Properties of the conversions.
  // ---------------------------------------------------------------------------

  /** Base units (metros/m, kg/quilos, litros/l) are left as they are, in both directions. */
  lemma UnidadesBase(valor: real, unidade: string)
    requires Lower(unidade) in {"metros", "m", "kg", "quilos", "litros", "l"}
    ensures ConverterParaUnidadeBase(valor, unidade) == valor
    ensures ConverterDeUnidadeBase(valor, unidade) == valor
    ensures Escala(unidade) == 1.0
  {
    var u := Lower(unidade);
    if u == "metros" {
      assert Procurar(Sinonimos, "metros", 0) == Metro;
    } else if u == "m" {
      assert Procurar(Sinonimos, "m", 0) == Metro;
    } else if u == "kg" {
      assert Procurar(Sinonimos, "kg", 0) == Quilo;
    } else if u == "quilos" {
      assert Procurar(Sinonimos, "quilos", 0) == Quilo;
    } else if u == "litros" {
      assert Procurar(Sinonimos, "litros", 0) == Litro;
    } else {
      assert Procurar(Sinonimos, "l", 0) == Litro;
    }
  }

  /** cm/centimetros are a hundredth of a metre. */
  lemma Centimetros(valor: real, unidade: string)
    requires Lower(unidade) in {"cm", "centimetros"}
    ensures ConverterParaUnidadeBase(valor, unidade) == valor / 100.0
    ensures ConverterDeUnidadeBase(valor, unidade) == valor * 100.0
  {
    if Lower(unidade) == "cm" {
      assert Procurar(Sinonimos, "cm", 0) == Centimetro;
    } else {
      assert Procurar(Sinonimos, "centimetros", 0) == Centimetro;
    }
  }

  /** gramas/g are a thousandth of a kilogram, ml/mililitros a thousandth of a litre. */
  lemma Milesimos(valor: real, unidade: string)
    requires Lower(unidade) in {"gramas", "g", "ml", "mililitros"}
    ensures ConverterParaUnidadeBase(valor, unidade) == valor / 1000.0
    ensures ConverterDeUnidadeBase(valor, unidade) == valor * 1000.0
  {
    var u := Lower(unidade);
    if u == "gramas" {
      assert Procurar(Sinonimos, "gramas", 0) == Grama;
    } else if u == "g" {
      assert Procurar(Sinonimos, "g", 0) == Grama;
    } else if u == "ml" {
      assert Procurar(Sinonimos, "ml", 0) == Mililitro;
    } else {
      assert Procurar(Sinonimos, "mililitros", 0) == Mililitro;
    }
  }

  /** A name outside the table (`unidades`, a typo, another dimension) passes through in both directions. */
  lemma UnidadeDesconhecida(valor: real, unidade: string)
    requires forall j :: 0 <= j < |Sinonimos| ==> Sinonimos[j].0 != Lower(unidade)
    ensures ConverterParaUnidadeBase(valor, unidade) == valor
    ensures ConverterDeUnidadeBase(valor, unidade) == valor
    ensures DimensaoDe(unidade) == Contagem
  {
    ProcurarAusente(Sinonimos, Lower(unidade), 0);
  }

  /** `unidades`, the count unit the forms offer, is not in the table. */
  lemma UnidadesEhContagem()
    ensures Reconhecer("unidades") == Outra && Escala("unidades") == 1.0
  {
  }

  /** Matching ignores case: two names that lowercase alike convert alike. */
  lemma IgnoraMaiusculas(valor: real, u1: string, u2: string, outra: string)
    requires Lower(u1) == Lower(u2)
    ensures ConverterParaUnidadeBase(valor, u1) == ConverterParaUnidadeBase(valor, u2)
    ensures ConverterDeUnidadeBase(valor, u1) == ConverterDeUnidadeBase(valor, u2)
    ensures CalcularConsumoMaterial(valor, u1, outra) == CalcularConsumoMaterial(valor, u2, outra)
    ensures CalcularConsumoMaterial(valor, outra, u1) == CalcularConsumoMaterial(valor, outra, u2)
  {
  }

  /** In particular a name converts like its lowercase form. */
  lemma ConverteComoMinusculas(valor: real, unidade: string)
    ensures ConverterParaUnidadeBase(valor, unidade) == ConverterParaUnidadeBase(valor, Lower(unidade))
    ensures ConverterDeUnidadeBase(valor, unidade) == ConverterDeUnidadeBase(valor, Lower(unidade))
  {
    LowerIdempotent(unidade);
  }

  /** Round trip: to the base unit and back gives the original quantity, for every unit name. */
  lemma IdaEVolta(valor: real, unidade: string)
    ensures ConverterDeUnidadeBase(ConverterParaUnidadeBase(valor, unidade), unidade) == valor
  {
    ParaBaseSegueEscala(valor, unidade);
    DeBaseSegueEscala(valor / Escala(unidade), unidade);
  }

  /** Converting between a unit and itself changes nothing. */
  lemma ConsumoIdentidade(valor: real, unidade: string)
    ensures CalcularConsumoMaterial(valor, unidade, unidade) == valor
  {
    IdaEVolta(valor, unidade);
  }

  /** Converting there and back between any two units gives the original quantity. */
  lemma ConsumoInverso(valor: real, de: string, para: string)
    ensures CalcularConsumoMaterial(CalcularConsumoMaterial(valor, de, para), para, de) == valor
  {
    var w := CalcularConsumoMaterial(valor, de, para);
    ConsumoSegueEscala(valor, de, para);
    ConsumoSegueEscala(w, para, de);
    MulDivCancela(valor, Escala(para), Escala(de));
  }

  /** The conversion is linear: it commutes with scaling. */
  lemma ConsumoLinear(c: real, valor: real, de: string, para: string)
    ensures CalcularConsumoMaterial(c * valor, de, para) == c * CalcularConsumoMaterial(valor, de, para)
  {
    var p, d := Escala(para), Escala(de);
    var w := c * valor;
    ConsumoSegueEscala(w, de, para);
    ConsumoSegueEscala(valor, de, para);
    Encadeia(CalcularConsumoMaterial(w, de, para), CalcularConsumoMaterial(valor, de, para), c, valor, w, p, d);
  }

  /** Nothing converts to nothing. */
  lemma ConsumoDeZero(de: string, para: string)
    ensures CalcularConsumoMaterial(0.0, de, para) == 0.0
  {
    ConsumoSegueEscala(0.0, de, para);
  }

  /** The conversion preserves sign and order (all scales are positive). */
  lemma ConsumoMonotono(v1: real, v2: real, de: string, para: string)
    ensures v1 <= v2 ==> CalcularConsumoMaterial(v1, de, para) <= CalcularConsumoMaterial(v2, de, para)
    ensures v1 < v2 ==> CalcularConsumoMaterial(v1, de, para) < CalcularConsumoMaterial(v2, de, para)
    ensures 0.0 <= v1 ==> 0.0 <= CalcularConsumoMaterial(v1, de, para)
  {
    ConsumoSegueEscala(v1, de, para);
    ConsumoSegueEscala(v2, de, para);
    MulDivMonotono(v1, v2, Escala(para), Escala(de));
  }

  /** 150 cm of a material bought by the metre is 1.5 metres, and back (in any letter case). */
  lemma ExemploCentimetros()
    ensures CalcularConsumoMaterial(150.0, "cm", "metros") == 1.5
    ensures CalcularConsumoMaterial(1.5, "metros", "CM") == 150.0
  {
    assert Reconhecer("cm") == Centimetro;
    assert Reconhecer("CM") == Centimetro;
    assert Reconhecer("metros") == Metro;
  }
}

/**
 * The string, sum and sort helpers (client/src/utils/helpers.ts).
 */
module Helpers {
  import opened Lists
  import opened Aritmetica

  // ---------------------------------------------------------------------------
  // validarTextoNaoVazio
  // ---------------------------------------------------------------------------

  /**
   * The characters `String.prototype.trim` removes: the ECMAScript WhiteSpace
   * characters (tab, vertical tab, form feed, space, no-break space, byte order
   * mark and the space separators) and LineTerminators (LF, CR, U+2028, U+2029).
   */
  predicate EhEspaco(c: char)
  {
    var n := c as int;
    || n == 0x09 || n == 0x0A || n == 0x0B || n == 0x0C || n == 0x0D
    || n == 0x20 || n == 0xA0 || n == 0x1680
    || (0x2000 <= n <= 0x200A)
    || n == 0x2028 || n == 0x2029 || n == 0x202F || n == 0x205F || n == 0x3000
    || n == 0xFEFF
  }

  /** The string without its leading white space. */
  function SemEspacosIniciais(s: string): (r: string)
    ensures |r| <= |s| && r == s[|s| - |r|..]
    ensures forall i :: 0 <= i < |s| - |r| ==> EhEspaco(s[i])
    ensures r != [] ==> !EhEspaco(r[0])
  {
    if s != [] && EhEspaco(s[0]) then SemEspacosIniciais(s[1..]) else s
  }

  /** The string without its trailing white space. */
  function SemEspacosFinais(s: string): (r: string)
    ensures |r| <= |s| && r == s[..|r|]
    ensures forall i :: |r| <= i < |s| ==> EhEspaco(s[i])
    ensures r != [] ==> !EhEspaco(r[|r| - 1])
  {
    if s != [] && EhEspaco(s[|s| - 1]) then SemEspacosFinais(s[..|s| - 1]) else s
  }

  /**
   * `texto.trim()`: no longer than the text, with white space on neither end,
   * and empty exactly when the text is all white space.
   */
  function Trim(s: string): (r: string)
    ensures |r| <= |s|
    ensures r != [] ==> !EhEspaco(r[0]) && !EhEspaco(r[|r| - 1])
    ensures r == [] <==> forall i :: 0 <= i < |s| ==> EhEspaco(s[i])
  {
    var t := SemEspacosIniciais(s);
    var r := SemEspacosFinais(t);
    assert r == [] ==> t == [];
    assert r != [] ==> r[0] == t[0] == s[|s| - |t|];
    r
  }

  /** Trimming twice is trimming once. */
  lemma TrimIdempotente(s: string)
    ensures Trim(Trim(s)) == Trim(s)
  {
    var r := Trim(s);
    if r != [] {
      assert SemEspacosIniciais(r) == r;
      assert SemEspacosFinais(r) == r;
    }
  }

  /** `validarTextoNaoVazio`: the trimmed text is not empty. */
  function ValidarTextoNaoVazio(texto: string): (r: bool)
    ensures r <==> exists i :: 0 <= i < |texto| && !EhEspaco(texto[i])
  {
    |Trim(texto)| > 0
  }

  // ---------------------------------------------------------------------------
  // truncarTexto
  // ---------------------------------------------------------------------------

  /** What `substring(0, n)` keeps of a longer string: a negative end counts as 0. */
  function Corte(maxLength: int): nat
  {
    if maxLength < 0 then 0 else maxLength
  }

  /**
   * `truncarTexto`: a text that fits is returned as it is; a longer one keeps
   * its first `maxLength` characters followed by `...`.
   */
  function TruncarTexto(texto: string, maxLength: int): (r: string)
    ensures |texto| <= maxLength ==> r == texto
    ensures |texto| > maxLength ==>
      |r| == Corte(maxLength) + 3 && r[..Corte(maxLength)] == texto[..Corte(maxLength)] && r[Corte(maxLength)..] == "..."
  {
    if |texto| <= maxLength then texto
    else texto[..Corte(maxLength)] + "..."
  }

  /** A truncated text is no longer than `maxLength + 3`, and truncating it again changes nothing. */
  lemma TruncarIdempotente(texto: string, maxLength: int)
    ensures |TruncarTexto(texto, maxLength)| <= if |texto| <= maxLength then |texto| else Corte(maxLength) + 3
    ensures TruncarTexto(TruncarTexto(texto, maxLength), maxLength) == TruncarTexto(texto, maxLength)
  {
    var r := TruncarTexto(texto, maxLength);
    if |texto| > maxLength {
      var n := Corte(maxLength);
      assert r[..n] == texto[..n];
      assert TruncarTexto(r, maxLength) == r[..n] + "...";
    }
  }

  // ---------------------------------------------------------------------------
  // calcularTotal and calcularMedia
  // ---------------------------------------------------------------------------

  function Valor(x: real): real { x }

  /** `calcularTotal`: `reduce` adding every value to 0. */
  function CalcularTotal(valores: seq<real>): (r: real)
    ensures valores == [] ==> r == 0.0
  {
    SomaPor(valores, Valor)
  }

  /** The total of two lists one after the other is the sum of their totals. */
  lemma TotalConcat(a: seq<real>, b: seq<real>)
    ensures CalcularTotal(a + b) == CalcularTotal(a) + CalcularTotal(b)
  {
    SomaPorConcat(a, b, Valor);
  }

  /** Values between two bounds add up to between n times each bound. */
  lemma {:induction false} TotalEntre(valores: seq<real>, lo: real, hi: real)
    requires forall i :: 0 <= i < |valores| ==> lo <= valores[i] <= hi
    ensures |valores| as real * lo <= CalcularTotal(valores) <= |valores| as real * hi
  {
    if valores != [] {
      var n := |valores| - 1;
      TotalEntre(valores[..n], lo, hi);
      assert CalcularTotal(valores) == CalcularTotal(valores[..n]) + valores[n];
    }
  }

  /** `calcularMedia`: 0 for no values, otherwise the total over the count. */
  function CalcularMedia(valores: seq<real>): (r: real)
    ensures valores == [] ==> r == 0.0
    ensures valores != [] ==> r * |valores| as real == CalcularTotal(valores)
  {
    if |valores| == 0 then 0.0 else CalcularTotal(valores) / |valores| as real
  }

  /** The mean of values between two bounds lies between the bounds. */
  lemma MediaEntre(valores: seq<real>, lo: real, hi: real)
    requires valores != []
    requires forall i :: 0 <= i < |valores| ==> lo <= valores[i] <= hi
    ensures lo <= CalcularMedia(valores) <= hi
  {
    TotalEntre(valores, lo, hi);
    QuocienteEntre(CalcularTotal(valores), |valores| as real, lo, hi);
  }

  // ---------------------------------------------------------------------------
  // ordenarPor
  // ---------------------------------------------------------------------------

  /** The `ordem` argument of `ordenarPor`. */
  datatype Ordem = Asc | Desc

  /** `a` may come before `b`: the comparator does not put `a` after `b`. */
  predicate EmOrdem<T>(chave: T -> real, ordem: Ordem, a: T, b: T)
  {
    if ordem == Asc then chave(a) <= chave(b) else chave(a) >= chave(b)
  }

  /** Non-decreasing by key for `Asc`, non-increasing for `Desc`. */
  ghost predicate Ordenado<T>(xs: seq<T>, chave: T -> real, ordem: Ordem)
  {
    forall i, j :: 0 <= i < j < |xs| ==> EmOrdem(chave, ordem, xs[i], xs[j])
  }

  /** Puts `x` in front of the first element it may precede. */
  function Inserir<T>(x: T, ys: seq<T>, chave: T -> real, ordem: Ordem): (r: seq<T>)
    requires Ordenado(ys, chave, ordem)
    ensures |r| == |ys| + 1
    ensures Ordenado(r, chave, ordem)
    ensures multiset(r) == multiset(ys) + multiset{x}
    ensures forall k :: 0 <= k < |r| ==> r[k] == x || r[k] in ys
  {
    if ys == [] then [x]
    else if EmOrdem(chave, ordem, x, ys[0]) then [x] + ys
    else
      var resto := Inserir(x, ys[1..], chave, ordem);
      assert ys == [ys[0]] + ys[1..];
      assert forall k :: 0 <= k < |resto| ==> EmOrdem(chave, ordem, ys[0], resto[k]);
      [ys[0]] + resto
  }

  /**
   * `ordenarPor`: a sorted copy of the array, by the key, in the given order.
   * The input is a value and is not changed.
   */
  function OrdenarPor<T>(xs: seq<T>, chave: T -> real, ordem: Ordem): (r: seq<T>)
    ensures |r| == |xs|
    ensures multiset(r) == multiset(xs)
    ensures Ordenado(r, chave, ordem)
  {
    if xs == [] then []
    else
      assert xs == [xs[0]] + xs[1..];
      Inserir(xs[0], OrdenarPor(xs[1..], chave, ordem), chave, ordem)
  }
}

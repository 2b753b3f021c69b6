/** The shared shape of the three voltage-level services (commercialisation
    C, restrictions R and recognised losses PR): the level name is
    upper-cased, looked up in a table of unit charges per kWh, and the
    charge is the consumption times that unit charge, rounded to 2 decimals,
    next to a `detalle` record of how it was computed. */
module Niveles {
  import opened Py
  import opened Text
  import opened Money

  /** The five voltage levels every table covers, from low to high. */
  const Levels: seq<string> := ["NT1", "NT2", "NT3", "NT4", "NT5"]

  /** A unit-charge table over exactly the five levels. */
  predicate IsTable(tabla: map<string, real>)
  {
    tabla.Keys == {"NT1", "NT2", "NT3", "NT4", "NT5"}
  }

  /** The unit charge falls as the voltage level rises. */
  predicate Decreasing(tabla: map<string, real>)
    requires IsTable(tabla)
  {
    forall i, j :: 0 <= i < j < |Levels| ==> tabla[Levels[i]] > tabla[Levels[j]]
  }

  /** The `detalle` dict: consumption, unit charge, normalised level, zone
      and the formula text. */
  datatype Detalle = Detalle(consumoKwh: real, cargoUnitarioCopKwh: real, nivelTension: string,
                             zona: string, formula: string)

  /** A service's answer: the rounded charge and its `detalle`. */
  datatype Resultado = Resultado(valor: real, detalle: Detalle)

  /** The charge for a consumption at a unit charge, rounded to 2 decimals. */
  function Cargo(consumo: real, cu: real): real
  {
    Round(consumo * cu, 2)
  }

  /** The message of the ValueError for an unknown level. */
  function NoReconocido(nivel: string): Failure
  {
    ValueError("Nivel de tensión no reconocido: " + nivel)
  }

  /** `nivel = nivel_tension.upper()` followed by the table lookup; an
      unknown level raises, naming the upper-cased level. */
  function Buscar(tabla: map<string, real>, nivelTension: string): (r: Result<real>)
    ensures r.Ok? <==> Upper(nivelTension) in tabla
    ensures r.Ok? ==> r.value == tabla[Upper(nivelTension)]
    ensures r.Err? ==> r.error == NoReconocido(Upper(nivelTension))
  {
    var nivel := Upper(nivelTension);
    if nivel !in tabla then Err(NoReconocido(nivel)) else Ok(tabla[nivel])
  }

  /** One service's computation on an already upper-cased level. */
  function CalcularNivel(tabla: map<string, real>, consumo: real, nivel: string, zona: string,
                         formula: string -> string): (r: Result<Resultado>)
    ensures r.Ok? <==> nivel in tabla
    ensures r.Err? ==> r.error == NoReconocido(nivel)
    ensures r.Ok? ==> r.value.valor == Cargo(consumo, tabla[nivel])
                      && r.value.detalle == Detalle(consumo, tabla[nivel], nivel, zona, formula(nivel))
  {
    if nivel !in tabla then Err(NoReconocido(nivel))
    else Ok(Resultado(Cargo(consumo, tabla[nivel]), Detalle(consumo, tabla[nivel], nivel, zona, formula(nivel))))
  }

  /** One service's computation; `formula` renders the formula text from
      the normalised level. */
  function Calcular(tabla: map<string, real>, consumo: real, nivelTension: string, zona: string,
                    formula: string -> string): (r: Result<Resultado>)
    ensures r.Ok? <==> Buscar(tabla, nivelTension).Ok?
    ensures r.Err? ==> r.error == Buscar(tabla, nivelTension).error
    ensures r.Ok? ==> r.value.detalle.cargoUnitarioCopKwh == Buscar(tabla, nivelTension).value
                      && r.value.detalle.nivelTension == Upper(nivelTension)
                      && r.value.detalle.consumoKwh == consumo
                      && r.value.detalle.zona == zona
                      && r.value.detalle.formula == formula(Upper(nivelTension))
    ensures r.Ok? ==> r.value.valor == Cargo(consumo, Buscar(tabla, nivelTension).value)
  {
    CalcularNivel(tabla, consumo, Upper(nivelTension), zona, formula)
  }

  lemma UpperCharIdempotent(c: char)
    ensures UpperChar(UpperChar(c)) == UpperChar(c)
  {
  }

  /** Upper-casing twice is upper-casing once. */
  lemma UpperIdempotent(s: string)
    ensures Upper(Upper(s)) == Upper(s)
  {
    forall i | 0 <= i < |s|
      ensures Upper(Upper(s))[i] == Upper(s)[i]
    {
      UpperCharIdempotent(s[i]);
    }
  }

  /** The level is case-insensitive: a request with any spelling of a level
      gets exactly the answer its upper-case spelling gets. */
  lemma MayusculasIndiferentes(tabla: map<string, real>, consumo: real, nivelTension: string,
                               zona: string, formula: string -> string)
    ensures Calcular(tabla, consumo, nivelTension, zona, formula)
            == Calcular(tabla, consumo, Upper(nivelTension), zona, formula)
  {
    UpperIdempotent(nivelTension);
  }

  /** The zone is only echoed: it never changes whether the level is
      accepted nor the charge. */
  lemma ZonaIndiferente(tabla: map<string, real>, consumo: real, nivelTension: string,
                        z1: string, z2: string, formula: string -> string)
    ensures Calcular(tabla, consumo, nivelTension, z1, formula).Ok?
            == Calcular(tabla, consumo, nivelTension, z2, formula).Ok?
    ensures Calcular(tabla, consumo, nivelTension, z1, formula).Ok? ==>
              Calcular(tabla, consumo, nivelTension, z1, formula).value.valor
              == Calcular(tabla, consumo, nivelTension, z2, formula).value.valor
  {
  }

  /** The spellings a table over the five levels accepts: three characters,
      `n` or `N`, `t` or `T`, then a digit from 1 to 5. */
  lemma NivelAceptado(tabla: map<string, real>, s: string)
    requires IsTable(tabla)
    ensures Upper(s) in tabla <==>
              |s| == 3 && (s[0] == 'n' || s[0] == 'N') && (s[1] == 't' || s[1] == 'T')
              && '1' <= s[2] <= '5'
  {
    var u := Upper(s);
    if u in tabla {
      assert |u| == 3 && u[0] == 'N' && u[1] == 'T' && '1' <= u[2] <= '5';
    }
    if |s| == 3 && (s[0] == 'n' || s[0] == 'N') && (s[1] == 't' || s[1] == 'T') && '1' <= s[2] <= '5' {
      assert u == ['N', 'T', s[2]];
      assert u == "NT1" || u == "NT2" || u == "NT3" || u == "NT4" || u == "NT5";
    }
  }

  /** A lower unit charge is never charged more for a non-negative
      consumption, and strictly less before rounding for a positive one. */
  lemma CargoMenorNoMasCaro(consumo: real, lo: real, hi: real)
    requires consumo >= 0.0 && lo < hi
    ensures Cargo(consumo, lo) <= Cargo(consumo, hi)
    ensures consumo > 0.0 ==> consumo * lo < consumo * hi
  {
    if consumo > 0.0 {
      assert consumo * hi - consumo * lo == consumo * (hi - lo);
      assert consumo * (hi - lo) > 0.0;
    }
    MulMonoLeft(consumo, lo, hi);
    RoundMonotone(consumo * lo, consumo * hi, 2);
  }

  /** With a decreasing table and a non-negative consumption, a higher
      voltage level is never charged more; with a positive consumption its
      unrounded charge is strictly lower. */
  lemma NivelMasAltoNoMasCaro(tabla: map<string, real>, consumo: real, i: nat, j: nat)
    requires IsTable(tabla) && Decreasing(tabla)
    requires consumo >= 0.0 && i < j < |Levels|
    ensures Cargo(consumo, tabla[Levels[j]]) <= Cargo(consumo, tabla[Levels[i]])
    ensures consumo > 0.0 ==> consumo * tabla[Levels[j]] < consumo * tabla[Levels[i]]
  {
    CargoMenorNoMasCaro(consumo, tabla[Levels[j]], tabla[Levels[i]]);
  }
}

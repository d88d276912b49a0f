/**
 * The appraisal computed from the quotation form (`calcularValores`): the
 * land value, the coefficient K read from the Ross-Heidecke table, the
 * depreciated value of the structure, the total and its dollar equivalent.
 * Money, areas and rates are reals; floating-point rounding is not modelled.
 */
module Appraisal {
  import RossHeidecke

  /** The quotation form's fields, with the numeric ones already converted to numbers. */
  datatype FormData = FormData(
    propiedad: string,
    terreno: string,
    valorResidual: real,
    valorReposicion: real,
    anosPropiedad: real,
    estadoPropiedad: int,
    cantidadM2: real,
    valorM2: real,
    dolarHoy: real)

  /** The five results the form shows and the history stores. */
  datatype CalculationResults = CalculationResults(
    valorActual: real,
    valorTerreno: real,
    valorTotal: real,
    valorTotalDolares: real,
    coeficienteK: real)

  /**
   * The Ross-Heidecke formula Va = VR - (VR - Vr) * K / 100: the structure
   * keeps its replacement value VR at K = 0 and falls to its residual value
   * Vr at K = 100. The result is not clamped.
   */
  function StructureValue(reposicion: real, residual: real, k: real): (va: real)
    ensures k == 0.0 ==> va == reposicion
    ensures k == 100.0 ==> va == residual
  {
    reposicion - (reposicion - residual) * (k / 100.0)
  }

  /** The land value: area times price per square metre; no land or no price gives 0, and a non-negative area and price a non-negative value. */
  function LandValue(cantidadM2: real, valorM2: real): (v: real)
    ensures cantidadM2 == 0.0 || valorM2 == 0.0 ==> v == 0.0
    ensures cantidadM2 >= 0.0 && valorM2 >= 0.0 ==> v >= 0.0
  {
    cantidadM2 * valorM2
  }

  /** A local-currency amount in dollars at `dolarHoy` per dollar; 0 when no positive rate is known. */
  function ToDollars(total: real, dolarHoy: real): (d: real)
    ensures dolarHoy > 0.0 ==> d * dolarHoy == total
    ensures dolarHoy <= 0.0 ==> d == 0.0
  {
    if dolarHoy > 0.0 then total / dolarHoy else 0.0
  }

  /**
   * All five results from one snapshot of the form: K is the table entry for
   * the age and condition, the total is land plus structure, and the dollar
   * total is the total converted at the form's rate.
   */
  function Appraise(f: FormData): (r: CalculationResults)
    ensures r.coeficienteK == RossHeidecke.Coefficient(f.anosPropiedad, f.estadoPropiedad)
    ensures 0.0 <= r.coeficienteK <= 100.0
    ensures r.valorTerreno == LandValue(f.cantidadM2, f.valorM2)
    ensures r.valorActual == StructureValue(f.valorReposicion, f.valorResidual, r.coeficienteK)
    ensures r.valorTotal == r.valorTerreno + r.valorActual
    ensures r.valorTotalDolares == ToDollars(r.valorTotal, f.dolarHoy)
  {
    var terreno := LandValue(f.cantidadM2, f.valorM2);
    var k := RossHeidecke.Coefficient(f.anosPropiedad, f.estadoPropiedad);
    var actual := StructureValue(f.valorReposicion, f.valorResidual, k);
    var total := terreno + actual;
    CalculationResults(actual, terreno, total, ToDollars(total, f.dolarHoy), k)
  }

  /** When the residual value does not exceed the replacement value, the structure is worth between the two. */
  lemma StructureValueBetween(reposicion: real, residual: real, k: real)
    requires residual <= reposicion && 0.0 <= k <= 100.0
    ensures residual <= StructureValue(reposicion, residual, k) <= reposicion
  {
    var d := reposicion - residual;
    var x := k / 100.0;
    assert 0.0 <= d * x;
    assert d * x <= d by {
      assert d - d * x == d * (1.0 - x);
      assert 0.0 <= d * (1.0 - x);
    }
  }

  /** A larger coefficient never raises the structure's value while the residual does not exceed the replacement value. */
  lemma StructureValueFallsWithK(reposicion: real, residual: real, k1: real, k2: real)
    requires residual <= reposicion && k1 <= k2
    ensures StructureValue(reposicion, residual, k2) <= StructureValue(reposicion, residual, k1)
  {
    var d := reposicion - residual;
    assert d * (k2 / 100.0) - d * (k1 / 100.0) == d * ((k2 - k1) / 100.0);
    assert 0.0 <= d * ((k2 - k1) / 100.0);
  }

  /**
   * The formula is not guarded: with a residual value above the replacement
   * value, any positive coefficient values the structure above its
   * replacement value.
   */
  lemma ResidualAboveReplacement(reposicion: real, residual: real, k: real)
    requires reposicion < residual && 0.0 < k
    ensures reposicion < StructureValue(reposicion, residual, k)
  {
    var d := residual - reposicion;
    var x := k / 100.0;
    assert 0.0 < d * x;
    assert (reposicion - residual) * x == -(d * x);
    assert StructureValue(reposicion, residual, k) == reposicion + d * x;
  }

  /** Only the numeric fields matter: two forms that agree on them get the same results. */
  lemma AppraiseIgnoresNames(f: FormData, g: FormData)
    requires f.(propiedad := g.propiedad, terreno := g.terreno) == g
    ensures Appraise(f) == Appraise(g)
  {}

  /**
   * For a fixed age, rating the structure in a worse condition never raises
   * its value or the total, as long as its residual value does not exceed its
   * replacement value.
   */
  lemma WorseConditionNeverRaisesValue(f: FormData, worse: int)
    requires f.valorResidual <= f.valorReposicion && f.estadoPropiedad <= worse
    ensures Appraise(f.(estadoPropiedad := worse)).valorActual <= Appraise(f).valorActual
    ensures Appraise(f.(estadoPropiedad := worse)).valorTotal <= Appraise(f).valorTotal
  {
    RossHeidecke.CoefficientGrowsWithCondition(f.anosPropiedad, f.estadoPropiedad, worse);
    StructureValueFallsWithK(
      f.valorReposicion, f.valorResidual,
      RossHeidecke.Coefficient(f.anosPropiedad, f.estadoPropiedad),
      RossHeidecke.Coefficient(f.anosPropiedad, worse));
  }

  /** A new property in excellent condition keeps its replacement value; a worthless one is left with its residual value. */
  lemma AppraisalExamples()
    ensures
      var r := Appraise(FormData("", "", 10000.0, 100000.0, 0.0, 1, 200.0, 500.0, 1000.0));
      r == CalculationResults(100000.0, 100000.0, 200000.0, 200.0, 0.0)
    ensures Appraise(FormData("", "", 10000.0, 100000.0, 99.0, 9, 0.0, 0.0, 0.0)).valorActual == 10000.0
  {}

  /**
   * The `useCalculations` hook: five pieces of state that every change of the
   * form recomputes from it.
   */
  class Calculations {
    var valorActual: real
    var valorTerreno: real
    var valorTotal: real
    var valorTotalDolares: real
    var coeficienteK: real

    /** The state as a results record. */
    function Results(): CalculationResults
      reads this
    {
      CalculationResults(valorActual, valorTerreno, valorTotal, valorTotalDolares, coeficienteK)
    }

    /** The hook starts with every result at 0. */
    constructor ()
      ensures Results() == CalculationResults(0.0, 0.0, 0.0, 0.0, 0.0)
    {
      valorActual, valorTerreno, valorTotal, valorTotalDolares, coeficienteK := 0.0, 0.0, 0.0, 0.0, 0.0;
    }

    /** `calcularValores`: every result is set from the same form snapshot. */
    method CalcularValores(formData: FormData)
      modifies this
      ensures Results() == Appraise(formData)
    {
      var calculoValorTerreno := LandValue(formData.cantidadM2, formData.valorM2);
      valorTerreno := calculoValorTerreno;
      var coeficiente := RossHeidecke.Coefficient(formData.anosPropiedad, formData.estadoPropiedad);
      coeficienteK := coeficiente;
      var calculoValorActual := StructureValue(formData.valorReposicion, formData.valorResidual, coeficiente);
      valorActual := calculoValorActual;
      var calculoValorTotal := calculoValorTerreno + calculoValorActual;
      valorTotal := calculoValorTotal;
      valorTotalDolares := if formData.dolarHoy > 0.0 then calculoValorTotal / formData.dolarHoy else 0.0;
    }
  }
}

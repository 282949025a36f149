/**
 * The "Diagnóstico de Coherencia" of `runDiagnosis`: a fixed decision table over the
 * record, first match wins, with exact string comparisons. The default row quotes the
 * first 30 characters of the offer and of the objections.
 */
module Coherence {
  import opened Intake
  import opened Numbers

  datatype Diagnosis = Diagnosis(problema: string, palanca: string)

  /** Row 1's guard: selling directly to an audience unaware of its problem. */
  predicate SellsToUnaware(d: PieData) {
    d.objetivo.prioritario == "Ventas" && d.audiencia.sofisticacion == "Inconsciente"
  }

  /** Row 2's guard: seeking mass reach with high polarisation. */
  predicate ReachesWhilePolarizing(d: PieData) {
    d.territorio.tension == "Alta" && d.objetivo.prioritario == "Alcance"
  }

  /** The warnings' problems open with a label: "ALERTA: " and "Riesgo calculado: ". */
  const UnawareAlert: Diagnosis := Diagnosis(
    "ALERTA: " + "Intentas vender directo (Ventas) a una audiencia que no sabe que tiene el problema (Inconsciente).",
    "Debes pivotar a contenido educativo primero.")

  const PolarizationRisk: Diagnosis := Diagnosis(
    "Riesgo calculado: " + "Buscas alcance masivo con alta polarización.",
    "Asegura que tu 'Lenguaje del Cliente' sea impecable para no alienar a los incorrectos.")

  /** The fixed text around the quoted prefixes of the default row. */
  const ProblemaHead: string := "Tu oferta de \""
  const ProblemaTail: string := "...\" requiere validación de autoridad."
  const PalancaHead: string := "Usa las objeciones \""
  const PalancaTail: string := "...\" como temas centrales de contenido."

  /** How many characters the default row quotes. */
  const QuoteLength: nat := 30

  /** `s.substring(0, n)`: the first n characters, or all of s when it is shorter. */
  function Prefix(s: string, n: nat): (r: string)
    ensures |r| == Min(n, |s|)
    ensures r == s[..|r|]
  {
    if |s| <= n then s else s[..n]
  }

  /** The table's default row: fixed text around at most 30 characters of each quoted field. */
  function Generic(d: PieData): (r: Diagnosis)
    ensures |r.problema| == |ProblemaHead| + Min(QuoteLength, |d.contexto.vende|) + |ProblemaTail|
    ensures |r.palanca| == |PalancaHead| + Min(QuoteLength, |d.audiencia.objeciones|) + |PalancaTail|
  {
    Diagnosis(
      ProblemaHead + Prefix(d.contexto.vende, QuoteLength) + ProblemaTail,
      PalancaHead + Prefix(d.audiencia.objeciones, QuoteLength) + PalancaTail)
  }

  /**
   * The diagnosis `runDiagnosis` stores once its timer fires: always one of the table's
   * three rows, and never an empty problem or lever.
   */
  function Diagnose(d: PieData): (r: Diagnosis)
    ensures r == UnawareAlert || r == PolarizationRisk || r == Generic(d)
    ensures r.problema != "" && r.palanca != ""
  {
    if SellsToUnaware(d) then UnawareAlert
    else if ReachesWhilePolarizing(d) then PolarizationRisk
    else Generic(d)
  }

  /** The two guards never hold together: `prioritario` cannot be both "Ventas" and "Alcance". */
  lemma GuardsExclusive(d: PieData)
    ensures !(SellsToUnaware(d) && ReachesWhilePolarizing(d))
  {
  }

  /** The default row never produces either warning's text. */
  lemma GenericIsNeitherWarning(d: PieData)
    ensures Generic(d).problema != UnawareAlert.problema
    ensures Generic(d).problema != PolarizationRisk.problema
  {
    var p := Generic(d).problema;
    assert p[0] == 'T';
    assert UnawareAlert.problema[0] == 'A';
    assert PolarizationRisk.problema[0] == 'R';
  }

  /** Row 1 fires exactly when its guard holds. */
  lemma UnawareAlertIff(d: PieData)
    ensures Diagnose(d) == UnawareAlert <==> SellsToUnaware(d)
  {
    GenericIsNeitherWarning(d);
    assert UnawareAlert.problema[0] != PolarizationRisk.problema[0];
  }

  /** Row 2 fires exactly when its guard holds and row 1's does not. */
  lemma PolarizationRiskIff(d: PieData)
    ensures Diagnose(d) == PolarizationRisk <==> !SellsToUnaware(d) && ReachesWhilePolarizing(d)
  {
    GenericIsNeitherWarning(d);
    assert UnawareAlert.problema[0] != PolarizationRisk.problema[0];
  }

  /**
   * When neither guard holds, the problem quotes the offer's first min(30, |vende|)
   * characters between its fixed head and tail, and the lever likewise quotes the objections.
   */
  lemma GenericQuotesPrefixes(d: PieData)
    requires !SellsToUnaware(d) && !ReachesWhilePolarizing(d)
    ensures var r, k := Diagnose(d), Min(QuoteLength, |d.contexto.vende|);
      && |r.problema| == |ProblemaHead| + k + |ProblemaTail|
      && r.problema[..|ProblemaHead|] == ProblemaHead
      && r.problema[|ProblemaHead|..|ProblemaHead| + k] == d.contexto.vende[..k]
      && r.problema[|ProblemaHead| + k..] == ProblemaTail
    ensures var r, k := Diagnose(d), Min(QuoteLength, |d.audiencia.objeciones|);
      && |r.palanca| == |PalancaHead| + k + |PalancaTail|
      && r.palanca[..|PalancaHead|] == PalancaHead
      && r.palanca[|PalancaHead|..|PalancaHead| + k] == d.audiencia.objeciones[..k]
      && r.palanca[|PalancaHead| + k..] == PalancaTail
  {
    var q := Prefix(d.contexto.vende, QuoteLength);
    var p := ProblemaHead + q + ProblemaTail;
    assert p[..|ProblemaHead|] == ProblemaHead;
    assert p[|ProblemaHead|..|ProblemaHead| + |q|] == q;
    assert p[|ProblemaHead| + |q|..] == ProblemaTail;
    var o := Prefix(d.audiencia.objeciones, QuoteLength);
    var l := PalancaHead + o + PalancaTail;
    assert l[..|PalancaHead|] == PalancaHead;
    assert l[|PalancaHead|..|PalancaHead| + |o|] == o;
    assert l[|PalancaHead| + |o|..] == PalancaTail;
  }

  /** The diagnosis depends on five fields only, and on nothing but the record. */
  lemma DiagnoseReadsFiveFields(a: PieData, b: PieData)
    requires Get(a, Prioritario) == Get(b, Prioritario)
    requires Get(a, Sofisticacion) == Get(b, Sofisticacion)
    requires Get(a, Tension) == Get(b, Tension)
    requires Get(a, Vende) == Get(b, Vende)
    requires Get(a, Objeciones) == Get(b, Objeciones)
    ensures Diagnose(a) == Diagnose(b)
  {
  }

  /** The five option texts of the sophistication `<select>`, which become the field's value. */
  const SofisticacionOptions: seq<string> := [
    "Inconsciente (Quiere viajar pero no sabe dónde)",
    "Consciente del Problema (Quiere naturaleza/descanso, busca destino)",
    "Consciente de la Solución (Sabe que quiere Minca/Tu región, compara opciones)",
    "Consciente del Producto (Ya vio tu hotel/tour, tiene dudas específicas)",
    "Totalmente Consciente (Te ama, solo necesita el link de pago)"]

  /**
   * No option text equals "Inconsciente", so once the audience is picked from the select,
   * row 1 can no longer fire: the comparison is exact, not a prefix match.
   */
  lemma SelectNeverSignalsUnaware(d: PieData, k: nat)
    requires k < |SofisticacionOptions|
    ensures !SellsToUnaware(Update(d, Sofisticacion, SofisticacionOptions[k]))
  {
    assert |SofisticacionOptions[k]| > |"Inconsciente"|;
  }
}

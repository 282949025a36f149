/**
 * The intake record (`pieData`) of the PIE protocol: four fixed sections holding
 * twelve string fields, and the copy-with-update that `handleInputChange` performs.
 */
module Intake {

  datatype ContextoData = ContextoData(vende: string, ticket: string, canales: string, limites: string)
  datatype TerritorioData = TerritorioData(temasSi: string, lineasRojas: string, tension: string)
  datatype AudienciaData = AudienciaData(lenguaje: string, sofisticacion: string, objeciones: string)
  datatype ObjetivoData = ObjetivoData(prioritario: string, razon: string)

  /** The whole record; the four section keys are always present. */
  datatype PieData = PieData(
    contexto: ContextoData,
    territorio: TerritorioData,
    audiencia: AudienciaData,
    objetivo: ObjetivoData)

  datatype Section = Contexto | Territorio | Audiencia | Objetivo

  /** The twelve fields; each belongs to exactly one section. */
  datatype Field =
    | Vende | Ticket | Canales | Limites
    | TemasSi | LineasRojas | Tension
    | Lenguaje | Sofisticacion | Objeciones
    | Prioritario | Razon

  function SectionOf(f: Field): Section {
    match f
    case Vende | Ticket | Canales | Limites => Contexto
    case TemasSi | LineasRojas | Tension => Territorio
    case Lenguaje | Sofisticacion | Objeciones => Audiencia
    case Prioritario | Razon => Objetivo
  }

  /** The fields in the order the record literal declares them. */
  const AllFields: seq<Field> :=
    [Vende, Ticket, Canales, Limites,
     TemasSi, LineasRojas, Tension,
     Lenguaje, Sofisticacion, Objeciones,
     Prioritario, Razon]

  /**
   * The fields of a section in declaration order: the keys `Object.values` visits and the
   * order the report lists them. No other section's field is listed, and a section has
   * two to four fields; that every field of the section is listed is `SectionFieldsCover`.
   */
  function SectionFields(s: Section): (fs: seq<Field>)
    ensures forall i :: 0 <= i < |fs| ==> SectionOf(fs[i]) == s
    ensures 2 <= |fs| <= 4
  {
    match s
    case Contexto => [Vende, Ticket, Canales, Limites]
    case Territorio => [TemasSi, LineasRojas, Tension]
    case Audiencia => [Lenguaje, Sofisticacion, Objeciones]
    case Objetivo => [Prioritario, Razon]
  }

  /** Every field is listed in its own section, so the sections together cover the record. */
  lemma SectionFieldsCover(f: Field)
    ensures f in SectionFields(SectionOf(f))
  {
  }

  /** The record the component starts with. */
  function Initial(): (d: PieData)
    ensures forall f :: Get(d, f) == "" <==> f !in {Tension, Sofisticacion, Prioritario}
    ensures Get(d, Tension) == "Media"
    ensures Get(d, Sofisticacion) == "Consciente del Problema"
    ensures Get(d, Prioritario) == "Ventas"
  {
    PieData(
      ContextoData("", "", "", ""),
      TerritorioData("", "", "Media"),
      AudienciaData("", "Consciente del Problema", ""),
      ObjetivoData("Ventas", ""))
  }

  /** Reads one field, `pieData[section][field]`. */
  function Get(d: PieData, f: Field): string {
    match f
    case Vende => d.contexto.vende
    case Ticket => d.contexto.ticket
    case Canales => d.contexto.canales
    case Limites => d.contexto.limites
    case TemasSi => d.territorio.temasSi
    case LineasRojas => d.territorio.lineasRojas
    case Tension => d.territorio.tension
    case Lenguaje => d.audiencia.lenguaje
    case Sofisticacion => d.audiencia.sofisticacion
    case Objeciones => d.audiencia.objeciones
    case Prioritario => d.objetivo.prioritario
    case Razon => d.objetivo.razon
  }

  /**
   * The updater passed to `setPieData` by `handleInputChange`: a copy of the record
   * whose one field is replaced by `v` as given, with no trimming or validation.
   */
  function Update(d: PieData, f: Field, v: string): (r: PieData)
    ensures Get(r, f) == v
    ensures forall g :: g != f ==> Get(r, g) == Get(d, g)
    ensures SectionOf(f) != Contexto ==> r.contexto == d.contexto
    ensures SectionOf(f) != Territorio ==> r.territorio == d.territorio
    ensures SectionOf(f) != Audiencia ==> r.audiencia == d.audiencia
    ensures SectionOf(f) != Objetivo ==> r.objetivo == d.objetivo
  {
    match f
    case Vende => d.(contexto := d.contexto.(vende := v))
    case Ticket => d.(contexto := d.contexto.(ticket := v))
    case Canales => d.(contexto := d.contexto.(canales := v))
    case Limites => d.(contexto := d.contexto.(limites := v))
    case TemasSi => d.(territorio := d.territorio.(temasSi := v))
    case LineasRojas => d.(territorio := d.territorio.(lineasRojas := v))
    case Tension => d.(territorio := d.territorio.(tension := v))
    case Lenguaje => d.(audiencia := d.audiencia.(lenguaje := v))
    case Sofisticacion => d.(audiencia := d.audiencia.(sofisticacion := v))
    case Objeciones => d.(audiencia := d.audiencia.(objeciones := v))
    case Prioritario => d.(objetivo := d.objetivo.(prioritario := v))
    case Razon => d.(objetivo := d.objetivo.(razon := v))
  }

  /** Two records are equal exactly when they agree on every field. */
  lemma Extensionality(a: PieData, b: PieData)
    requires forall f :: Get(a, f) == Get(b, f)
    ensures a == b
  {
    assert Get(a, Vende) == Get(b, Vende) && Get(a, Ticket) == Get(b, Ticket);
    assert Get(a, Canales) == Get(b, Canales) && Get(a, Limites) == Get(b, Limites);
    assert Get(a, TemasSi) == Get(b, TemasSi) && Get(a, LineasRojas) == Get(b, LineasRojas);
    assert Get(a, Tension) == Get(b, Tension) && Get(a, Lenguaje) == Get(b, Lenguaje);
    assert Get(a, Sofisticacion) == Get(b, Sofisticacion) && Get(a, Objeciones) == Get(b, Objeciones);
    assert Get(a, Prioritario) == Get(b, Prioritario) && Get(a, Razon) == Get(b, Razon);
  }

  /** Last write wins: a second edit of the same field erases the first. */
  lemma UpdateLastWriteWins(d: PieData, f: Field, a: string, b: string)
    ensures Update(Update(d, f, a), f, b) == Update(d, f, b)
  {
    Extensionality(Update(Update(d, f, a), f, b), Update(d, f, b));
  }

  /** Edits of two different fields do not interfere, whatever their order. */
  lemma UpdateCommutes(d: PieData, f: Field, a: string, g: Field, b: string)
    requires f != g
    ensures Update(Update(d, f, a), g, b) == Update(Update(d, g, b), f, a)
  {
    Extensionality(Update(Update(d, f, a), g, b), Update(Update(d, g, b), f, a));
  }

  /** Writing back the value a field already holds leaves the record as it was. */
  lemma UpdateSameValue(d: PieData, f: Field)
    ensures Update(d, f, Get(d, f)) == d
  {
    Extensionality(Update(d, f, Get(d, f)), d);
  }
}

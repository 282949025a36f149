/**
 * `downloadArtifacts`: the Markdown report built by `generateMarkdown` and the name of
 * the one file it is saved under. The pretty-printed JSON of the record and the ISO
 * timestamp are inputs of the template.
 */
module Export {
  import opened Intake

  /** What an empty field shows in the report (`value || 'No definido'`). */
  const Placeholder: string := "No definido"

  function Shown(v: string): (r: string)
    ensures r != ""
    ensures v != "" ==> r == v
    ensures v == "" ==> r == Placeholder
  {
    if v == "" then Placeholder else v
  }

  /** The bold label of each field's bullet. */
  function Label(f: Field): string {
    match f
    case Vende => "Oferta Principal"
    case Ticket => "Ticket Promedio"
    case Canales => "Canales Actuales"
    case Limites => "Límites Duros (Anti-Venta)"
    case TemasSi => "Autoridad (Temas SÍ)"
    case LineasRojas => "Líneas Rojas (Temas NO)"
    case Tension => "Nivel de Tensión"
    case Lenguaje => "Lenguaje del Cliente"
    case Sofisticacion => "Nivel de Sofisticación"
    case Objeciones => "Objeciones Principales"
    case Prioritario => "Prioridad"
    case Razon => "Razón Estratégica"
  }

  /** One bullet `- **Label**: value`; the customer's language is shown between double quotes. */
  function FieldLine(f: Field, shown: string): string {
    "- **" + Label(f) + "**: " + (if f == Lenguaje then "\"" + shown + "\"" else shown)
  }

  function SectionHeading(s: Section): string {
    match s
    case Contexto => "## 01. CONTEXTO DE NEGOCIO (Realidad Operativa)"
    case Territorio => "## 02. TERRITORIO EDITORIAL (Límites de Autoridad)"
    case Audiencia => "## 03. AUDIENCIA & LENGUAJE (Psicografía)"
    case Objetivo => "## 04. OBJETIVO ESTRATÉGICO (North Star)"
  }

  /** The YAML-style front matter between its two `---` lines. */
  function FrontMatter(sessionId: string, date: string): (r: seq<string>)
    ensures |r| == 6
  {
    ["---", "root-routes-type: ingestion-protocol", "id: " + sessionId, "date: " + date, "status: raw-input", "---"]
  }

  const SystemNote: string :=
    "> **SISTEMA**: Este archivo contiene la verdad fundamental del negocio del cliente. Úsalo como contexto inmutable para los nodos Estratega y Redactor."

  function TitleBlock(title: string): (r: seq<string>)
    ensures |r| == 4
  {
    ["", "# ROOT ROUTES OS - " + title, "", SystemNote]
  }

  /** A blank line, the section's heading, then one bullet per field. */
  function SectionBlock(d: PieData, s: Section): (r: seq<string>)
    ensures |r| == 2 + |SectionFields(s)|
  {
    var fs := SectionFields(s);
    ["", SectionHeading(s)] + seq(|fs|, i requires 0 <= i < |fs| => FieldLine(fs[i], Shown(Get(d, fs[i]))))
  }

  lemma SectionBlockAt(d: PieData, s: Section, i: nat)
    requires i < |SectionFields(s)|
    ensures SectionBlock(d, s)[2 + i] == FieldLine(SectionFields(s)[i], Shown(Get(d, SectionFields(s)[i])))
  {
  }

  /** The closing rule and the fenced block holding the record's JSON. */
  function MachineBlock(jsonBlock: string): (r: seq<string>)
    ensures |r| == 6
  {
    ["", "---", "## \U{1F916} MACHINE READABLE CONTEXT (DO NOT EDIT)", "```json", jsonBlock, "```"]
  }

  /** The report's lines, in order; the template puts a line break after each. */
  function ReportLines(title: string, sessionId: string, date: string, jsonBlock: string, d: PieData): (r: seq<string>)
    ensures |r| == 36
  {
    FrontMatter(sessionId, date) + TitleBlock(title)
    + SectionBlock(d, Contexto) + SectionBlock(d, Territorio)
    + SectionBlock(d, Audiencia) + SectionBlock(d, Objetivo)
    + MachineBlock(jsonBlock)
  }

  /** The blocks of the report that precede section s's block. */
  function ReportBefore(title: string, sessionId: string, date: string, d: PieData, s: Section): seq<string> {
    var head := FrontMatter(sessionId, date) + TitleBlock(title);
    match s
    case Contexto => head
    case Territorio => head + SectionBlock(d, Contexto)
    case Audiencia => head + SectionBlock(d, Contexto) + SectionBlock(d, Territorio)
    case Objetivo => head + SectionBlock(d, Contexto) + SectionBlock(d, Territorio) + SectionBlock(d, Audiencia)
  }

  /** The blocks of the report that follow section s's block. */
  function ReportAfter(jsonBlock: string, d: PieData, s: Section): seq<string> {
    var tail := MachineBlock(jsonBlock);
    match s
    case Contexto => SectionBlock(d, Territorio) + SectionBlock(d, Audiencia) + SectionBlock(d, Objetivo) + tail
    case Territorio => SectionBlock(d, Audiencia) + SectionBlock(d, Objetivo) + tail
    case Audiencia => SectionBlock(d, Objetivo) + tail
    case Objetivo => tail
  }

  /** Where each section's block starts among the report's lines. */
  function SectionStart(s: Section): nat {
    match s
    case Contexto => 10
    case Territorio => 16
    case Audiencia => 21
    case Objetivo => 26
  }

  /** Where a field sits within its section. */
  function PositionInSection(f: Field): (i: nat)
    ensures i < |SectionFields(SectionOf(f))| && SectionFields(SectionOf(f))[i] == f
  {
    match f
    case Vende => 0 case Ticket => 1 case Canales => 2 case Limites => 3
    case TemasSi => 0 case LineasRojas => 1 case Tension => 2
    case Lenguaje => 0 case Sofisticacion => 1 case Objeciones => 2
    case Prioritario => 0 case Razon => 1
  }

  /** The line of the report that carries each field. */
  function LineOf(f: Field): nat {
    SectionStart(SectionOf(f)) + 2 + PositionInSection(f)
  }

  const IdLine: nat := 2
  const JsonLine: nat := 34

  /**
   * The report as its blocks, grouped so that the block of section s stands between
   * what precedes it and what follows it.
   */
  lemma ReportAround(title: string, sessionId: string, date: string, jsonBlock: string, d: PieData, s: Section)
    ensures var lines, before, after := ReportLines(title, sessionId, date, jsonBlock, d),
      ReportBefore(title, sessionId, date, d, s), ReportAfter(jsonBlock, d, s);
      |before| == SectionStart(s) && lines == before + SectionBlock(d, s) + after
  {
    var head := FrontMatter(sessionId, date) + TitleBlock(title);
    var c, t := SectionBlock(d, Contexto), SectionBlock(d, Territorio);
    var a, o, m := SectionBlock(d, Audiencia), SectionBlock(d, Objetivo), MachineBlock(jsonBlock);
    match s
    case Contexto =>
      var x := head + c;
      AppendAssoc(x, t, a);
      AppendAssoc(x, t + a, o);
      AppendAssoc(x, t + a + o, m);
    case Territorio =>
      var x := head + c + t;
      AppendAssoc(x, a, o);
      AppendAssoc(x, a + o, m);
    case Audiencia =>
      AppendAssoc(head + c + t + a, o, m);
    case Objetivo =>
  }

  lemma IndexInMiddle(x: seq<string>, y: seq<string>, z: seq<string>, j: nat)
    requires j < |y|
    ensures (x + y + z)[|x| + j] == y[j]
  {
  }

  lemma AppendAssoc(x: seq<string>, y: seq<string>, z: seq<string>)
    ensures x + y + z == x + (y + z)
  {
  }

  /** Each field's bullet is the report line `LineOf` names. */
  lemma ReportLineOfField(title: string, sessionId: string, date: string, jsonBlock: string, d: PieData, f: Field)
    ensures LineOf(f) < 36
    ensures ReportLines(title, sessionId, date, jsonBlock, d)[LineOf(f)] == FieldLine(f, Shown(Get(d, f)))
  {
    var s, i := SectionOf(f), PositionInSection(f);
    var lines := ReportLines(title, sessionId, date, jsonBlock, d);
    var before, block, after := ReportBefore(title, sessionId, date, d, s), SectionBlock(d, s), ReportAfter(jsonBlock, d, s);
    ReportAround(title, sessionId, date, jsonBlock, d, s);
    assert lines == before + block + after && LineOf(f) == |before| + 2 + i;
    IndexInMiddle(before, block, after, 2 + i);
    SectionBlockAt(d, s, i);
  }

  /** Each line followed by a line break. */
  function Join(lines: seq<string>): string
    decreases |lines|
  {
    if lines == [] then "" else lines[0] + "\n" + Join(lines[1..])
  }

  lemma {:induction false} JoinAppend(a: seq<string>, b: seq<string>)
    ensures Join(a + b) == Join(a) + Join(b)
    decreases |a|
  {
    if a == [] {
      assert a + b == b;
    } else {
      assert (a + b)[0] == a[0];
      assert (a + b)[1..] == a[1..] + b;
      JoinAppend(a[1..], b);
    }
  }

  /** Appending a line appends it, with its line break, to the joined text. */
  lemma JoinSnoc(pre: seq<string>, x: string)
    ensures Join(pre + [x]) == Join(pre) + (x + "\n")
  {
    JoinAppend(pre, [x]);
    assert [x][1..] == [];
  }

  /** A text joined from lines that open and close with fences opens and closes with them. */
  lemma JoinFenced(lines: seq<string>)
    requires |lines| >= 2 && lines[0] == "---" && lines[|lines| - 1] == "```"
    ensures var r := Join(lines); |r| >= 4 && r[..4] == "---" + "\n" && r[|r| - 4..] == "```" + "\n"
  {
    var n := |lines| - 1;
    assert lines[..n] + [lines[n]] == lines;
    JoinSnoc(lines[..n], lines[n]);
    assert lines[..n][0] == "---";
    var rest := Join(lines[..n][1..]);
    assert Join(lines[..n]) == "---" + "\n" + rest;
  }

  /** Where line k starts in the joined text. */
  function Offset(lines: seq<string>, k: nat): nat
    requires k <= |lines|
  {
    |Join(lines[..k])|
  }

  /** The joined text begins with the joined first k lines. */
  lemma JoinPrefix(lines: seq<string>, k: nat)
    requires k <= |lines|
    ensures Offset(lines, k) <= |Join(lines)|
    ensures Join(lines)[..Offset(lines, k)] == Join(lines[..k])
  {
    assert lines == lines[..k] + lines[k..];
    JoinAppend(lines[..k], lines[k..]);
  }

  /** Line k sits, followed by its line break, at its offset in the joined text. */
  lemma LineAt(lines: seq<string>, k: nat)
    requires k < |lines|
    ensures Offset(lines, k) + |lines[k]| < |Join(lines)|
    ensures Join(lines)[Offset(lines, k)..Offset(lines, k) + |lines[k]|] == lines[k]
    ensures Join(lines)[Offset(lines, k) + |lines[k]|] == '\n'
  {
    var pre, rest := lines[..k], lines[k..];
    assert lines == pre + rest;
    JoinAppend(pre, rest);
    var a, b, c := Join(pre), lines[k], "\n" + Join(rest[1..]);
    assert Join(rest) == b + c;
    var whole := a + (b + c);
    assert whole == Join(lines);
    forall j | 0 <= j < |b|
      ensures whole[|a| + j] == b[j]
    {
      assert whole[|a| + j] == (b + c)[j];
    }
    assert whole[|a|..|a| + |b|] == b;
    assert whole[|a| + |b|] == c[0];
  }

  /**
   * `generateMarkdown(title, data)`: the report as one text, every line ended by a line
   * break. It opens with the front matter's `---` fence and closes with the fence of the
   * JSON block.
   */
  function Markdown(title: string, sessionId: string, date: string, jsonBlock: string, d: PieData): (r: string)
    ensures |r| >= 4 && r[..4] == "---" + "\n"
    ensures r[|r| - 4..] == "```" + "\n"
  {
    var lines := ReportLines(title, sessionId, date, jsonBlock, d);
    FrontMatterFence(title, sessionId, date, jsonBlock, d);
    ReportClosingLines(title, sessionId, date, jsonBlock, d);
    JoinFenced(lines);
    Join(lines)
  }

  /**
   * Every field has its own labelled line in the report, which shows the field's value
   * when it is non-empty and "No definido" otherwise.
   */
  lemma MarkdownShowsField(title: string, sessionId: string, date: string, jsonBlock: string, d: PieData, f: Field)
    ensures var lines, k := ReportLines(title, sessionId, date, jsonBlock, d), LineOf(f);
      && k < |lines|
      && lines[k] == FieldLine(f, Shown(Get(d, f)))
      && Offset(lines, k) + |lines[k]| < |Markdown(title, sessionId, date, jsonBlock, d)|
      && Markdown(title, sessionId, date, jsonBlock, d)[Offset(lines, k)..Offset(lines, k) + |lines[k]|] == lines[k]
  {
    var lines := ReportLines(title, sessionId, date, jsonBlock, d);
    ReportLineOfField(title, sessionId, date, jsonBlock, d, f);
    LineAt(lines, LineOf(f));
  }

  /** Different fields are reported on different lines. */
  lemma FieldLinesDistinct(f: Field, g: Field)
    requires f != g
    ensures LineOf(f) != LineOf(g)
  {
  }

  /** The first three front-matter lines, joined. */
  /** The front matter joined: the type tag, the session id, the date, the status, between fences. */
  lemma FrontMatterJoined(sessionId: string, date: string)
    ensures Join(FrontMatter(sessionId, date)) ==
      "---" + "\n" + "root-routes-type: ingestion-protocol" + "\n" + "id: " + sessionId + "\n"
      + "date: " + date + "\n" + "status: raw-input" + "\n" + "---" + "\n"
  {
    var fm := FrontMatter(sessionId, date);
    assert fm[1..][1..][1..][1..][1..][1..] == [];
    assert Join(fm[5..]) == "---" + "\n";
    assert Join(fm[4..]) == "status: raw-input" + "\n" + Join(fm[5..]);
    assert Join(fm[3..]) == "date: " + date + "\n" + Join(fm[4..]);
    assert Join(fm[2..]) == "id: " + sessionId + "\n" + Join(fm[3..]);
    assert Join(fm[1..]) == "root-routes-type: ingestion-protocol" + "\n" + Join(fm[2..]);
  }

  /**
   * The report opens with its whole front matter: the `id:` line carries the session id,
   * the `date:` line the timestamp, and the status is `raw-input`.
   */
  lemma MarkdownFrontMatter(title: string, sessionId: string, date: string, jsonBlock: string, d: PieData)
    ensures var doc, head := Markdown(title, sessionId, date, jsonBlock, d),
      "---" + "\n" + "root-routes-type: ingestion-protocol" + "\n" + "id: " + sessionId + "\n"
      + "date: " + date + "\n" + "status: raw-input" + "\n" + "---" + "\n";
      |head| <= |doc| && doc[..|head|] == head
  {
    var lines := ReportLines(title, sessionId, date, jsonBlock, d);
    var fm, tb := FrontMatter(sessionId, date), TitleBlock(title);
    ReportAround(title, sessionId, date, jsonBlock, d, Contexto);
    IndexInMiddle([], fm, tb + SectionBlock(d, Contexto) + ReportAfter(jsonBlock, d, Contexto), 0);
    assert lines[..6] == fm;
    JoinPrefix(lines, 6);
    FrontMatterJoined(sessionId, date);
  }

  /** The title line, `# ROOT ROUTES OS - ` and the title, follows the front matter and a blank line. */
  lemma ReportTitleLine(title: string, sessionId: string, date: string, jsonBlock: string, d: PieData)
    ensures ReportLines(title, sessionId, date, jsonBlock, d)[7] == "# ROOT ROUTES OS - " + title
  {
    var lines := ReportLines(title, sessionId, date, jsonBlock, d);
    var fm, tb := FrontMatter(sessionId, date), TitleBlock(title);
    ReportAround(title, sessionId, date, jsonBlock, d, Contexto);
    IndexInMiddle(fm, tb, SectionBlock(d, Contexto) + ReportAfter(jsonBlock, d, Contexto), 1);
  }

  /** The report's first line is the front matter's opening fence. */
  lemma FrontMatterFence(title: string, sessionId: string, date: string, jsonBlock: string, d: PieData)
    ensures ReportLines(title, sessionId, date, jsonBlock, d)[0] == "---"
  {
    ReportAround(title, sessionId, date, jsonBlock, d, Contexto);
    assert ReportBefore(title, sessionId, date, d, Contexto)[0] == FrontMatter(sessionId, date)[0];
  }

  /** The report closes with the json fence, the record's JSON and the closing fence. */
  lemma ReportClosingLines(title: string, sessionId: string, date: string, jsonBlock: string, d: PieData)
    ensures var lines := ReportLines(title, sessionId, date, jsonBlock, d);
      lines[JsonLine - 1] == "```json" && lines[JsonLine] == jsonBlock && lines[JsonLine + 1] == "```"
  {
    ReportAround(title, sessionId, date, jsonBlock, d, Objetivo);
    var before := ReportBefore(title, sessionId, date, d, Objetivo) + SectionBlock(d, Objetivo);
    var m := MachineBlock(jsonBlock);
    assert |before| == 30;
    assert (before + m)[JsonLine - 1] == m[3] && (before + m)[JsonLine] == m[4] && (before + m)[JsonLine + 1] == m[5];
  }

  /** The record's JSON is embedded verbatim as its own line inside the closing fenced block. */
  lemma MarkdownEmbedsJson(title: string, sessionId: string, date: string, jsonBlock: string, d: PieData)
    ensures var lines := ReportLines(title, sessionId, date, jsonBlock, d);
      && lines[JsonLine - 1] == "```json" && lines[JsonLine] == jsonBlock && lines[JsonLine + 1] == "```"
      && Offset(lines, JsonLine) + |jsonBlock| < |Markdown(title, sessionId, date, jsonBlock, d)|
      && Markdown(title, sessionId, date, jsonBlock, d)[Offset(lines, JsonLine)..Offset(lines, JsonLine) + |jsonBlock|]
         == jsonBlock
  {
    var lines := ReportLines(title, sessionId, date, jsonBlock, d);
    ReportClosingLines(title, sessionId, date, jsonBlock, d);
    LineAt(lines, JsonLine);
    assert Markdown(title, sessionId, date, jsonBlock, d) == Join(lines);
  }

  /** The title of the one report `downloadArtifacts` writes. */
  const ReportTitle: string := "REPORTE DE INGESTIÓN"
  const FilePrefix: string := "PIE_"
  const FileSuffix: string := "_SystemReady.md"

  /** `PIE_${sessionId}_SystemReady.md`. */
  function FileName(sessionId: string): (r: string)
    ensures |r| == |FilePrefix| + |sessionId| + |FileSuffix|
    ensures r[..|FilePrefix|] == FilePrefix
    ensures r[|FilePrefix|..|FilePrefix| + |sessionId|] == sessionId
    ensures r[|FilePrefix| + |sessionId|..] == FileSuffix
  {
    FilePrefix + sessionId + FileSuffix
  }

  /** Different sessions save under different file names. */
  lemma FileNameInjective(a: string, b: string)
    requires FileName(a) == FileName(b)
    ensures a == b
  {
  }

  datatype File = File(name: string, content: string)

  /** The files `downloadArtifacts` hands to the browser: one report named after the session. */
  function Artifacts(sessionId: string, date: string, jsonBlock: string, d: PieData): (files: seq<File>)
    ensures |files| == 1
    ensures files[0].name == FileName(sessionId)
    ensures files[0].content == Markdown(ReportTitle, sessionId, date, jsonBlock, d)
  {
    [File(FileName(sessionId), Markdown(ReportTitle, sessionId, date, jsonBlock, d))]
  }
}

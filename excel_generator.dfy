/**
 * The report builder: it keeps the jobs that succeeded and carry data,
 * flattens each into one spreadsheet row of 26 columns under fixed
 * Portuguese keys, and sizes each column from its key. Building the
 * worksheet and workbook and writing the file belong to a spreadsheet
 * library; the model stops at what is handed to it.
 */
module Report {
  import opened Types

  /** The columns of the report, in the order the row object lists its keys. */
  datatype Column =
    | Arquivo
    | Nome | NomeRegistroCivil | FiliacaoMae | Nacionalidade | RegimeCasamento | Rg | Endereco | Municipio | DataNascimento | EstadoCivil | DataCasamento | Profissao
    | ConjugeNome | ConjugeNomeRegistroCivil | ConjugeNacionalidade | ConjugeRg | ConjugeDataNascimento | ConjugeEstadoCivil | ConjugeProfissao
    | RendaIndividual | RendaFamiliar
    | TipoUnidade | FracaoIdeal | ValorAvaliacaoTerreno | DescricaoUnidade

  /** The key of each column in the row object, which becomes its header in the sheet. */
  function Header(c: Column): string {
    match c
    case Arquivo => "Arquivo"
    case Nome => "A - NOME"
    case NomeRegistroCivil => "A - NOME REGISTRO CIVIL"
    case FiliacaoMae => "A - FILIAÇÃO MÃE"
    case Nacionalidade => "A - NACIONALIDADE"
    case RegimeCasamento => "A - REGIME CASAMENTO"
    case Rg => "A - R.G. N."
    case Endereco => "A - ENDEREÇO"
    case Municipio => "A - MUNICIPIO"
    case DataNascimento => "A - DATA NASCIMENTO"
    case EstadoCivil => "A - ESTADO CIVIL"
    case DataCasamento => "A - DATA DE CASAMENTO"
    case Profissao => "A - PROFISSÃO"
    case ConjugeNome => "A - CÔNJUGE"
    case ConjugeNomeRegistroCivil => "A - CÔNJUGE REGISTRO CIVIL"
    case ConjugeNacionalidade => "A - CÔNJUGE NACIONALIDADE"
    case ConjugeRg => "A - CÔNJUGE R.G."
    case ConjugeDataNascimento => "A - CÔNJUGE DATA NASC."
    case ConjugeEstadoCivil => "A - CÔNJUGE EST. CIVIL"
    case ConjugeProfissao => "A - CÔNJUGE PROFISSÃO"
    case RendaIndividual => "B - RENDA INDIVIDUAL"
    case RendaFamiliar => "B - RENDA FAMILIAR"
    case TipoUnidade => "C - TIPO DA UNIDADE"
    case FracaoIdeal => "C - FRAÇÃO IDEAL"
    case ValorAvaliacaoTerreno => "C - VAL. AVAL. FRAÇÃO TERRENO"
    case DescricaoUnidade => "C - DESCRIÇÃO DA UNIDADE"
  }

  /** All columns in order: the file name, 12 buyer, 7 spouse, 2 income and 4 property columns. */
  const Columns: seq<Column> := [
    Arquivo,
    Nome, NomeRegistroCivil, FiliacaoMae, Nacionalidade, RegimeCasamento, Rg, Endereco, Municipio, DataNascimento, EstadoCivil, DataCasamento, Profissao,
    ConjugeNome, ConjugeNomeRegistroCivil, ConjugeNacionalidade, ConjugeRg, ConjugeDataNascimento, ConjugeEstadoCivil, ConjugeProfissao,
    RendaIndividual, RendaFamiliar,
    TipoUnidade, FracaoIdeal, ValorAvaliacaoTerreno, DescricaoUnidade]

  /** One cell of a row: its column and its text. */
  datatype Cell = Cell(column: Column, value: string)

  type Row = seq<Cell>

  /** What is handed to the spreadsheet library: sheet name, file name, rows and column widths. */
  datatype Workbook = Workbook(sheetName: string, fileName: string, rows: seq<Row>, widths: seq<int>)

  const SheetName := "Relatório Dados"
  const OutputFileName := "Relatorio_Extracao_Imoveis.xlsx"

  /** The position of each column in the table. */
  function Position(c: Column): nat {
    match c
    case Arquivo => 0
    case Nome => 1 case NomeRegistroCivil => 2 case FiliacaoMae => 3 case Nacionalidade => 4
    case RegimeCasamento => 5 case Rg => 6 case Endereco => 7 case Municipio => 8 case DataNascimento => 9
    case EstadoCivil => 10 case DataCasamento => 11 case Profissao => 12
    case ConjugeNome => 13 case ConjugeNomeRegistroCivil => 14 case ConjugeNacionalidade => 15 case ConjugeRg => 16
    case ConjugeDataNascimento => 17 case ConjugeEstadoCivil => 18 case ConjugeProfissao => 19
    case RendaIndividual => 20 case RendaFamiliar => 21
    case TipoUnidade => 22 case FracaoIdeal => 23 case ValorAvaliacaoTerreno => 24 case DescricaoUnidade => 25
  }

  /** Every column appears in the table exactly at its position, so the table lists each column once. */
  lemma PositionsMatch()
    ensures |Columns| == 26
    ensures forall k :: 0 <= k < |Columns| ==> Position(Columns[k]) == k
  {
  }

  /** Different columns have different keys. */
  lemma HeaderInjective()
    ensures forall c, d :: Header(c) == Header(d) ==> c == d
  {
  }

  /** The 26 columns have 26 distinct keys, so no key of the row object overwrites another. */
  lemma HeadersAreDistinct()
    ensures |Columns| == 26
    ensures forall i, j :: 0 <= i < j < |Columns| ==> Header(Columns[i]) != Header(Columns[j])
  {
    PositionsMatch();
    HeaderInjective();
  }

  // ------------------------------------------------------------ filtering

  /** A job whose data goes into the report. */
  predicate Qualifies(r: ExtractionResult) {
    r.status == Success && r.data.Some?
  }

  /** The jobs that go into the report, in their original order. */
  function ValidResults(results: seq<ExtractionResult>): (v: seq<ExtractionResult>)
    ensures |v| <= |results|
    ensures forall x :: x in v <==> x in results && Qualifies(x)
    ensures forall k :: 0 <= k < |v| ==> Qualifies(v[k])
  {
    if results == [] then []
    else (if Qualifies(results[0]) then [results[0]] else []) + ValidResults(results[1..])
  }

  /** Filtering distributes over concatenation, so it keeps the original relative order. */
  lemma {:induction false} ValidResultsAppend(a: seq<ExtractionResult>, b: seq<ExtractionResult>)
    ensures ValidResults(a + b) == ValidResults(a) + ValidResults(b)
  {
    if a == [] {
      assert a + b == b;
    } else {
      assert (a + b)[1..] == a[1..] + b;
      ValidResultsAppend(a[1..], b);
    }
  }

  /** Filtering a list twice is filtering it once. */
  lemma {:induction false} ValidResultsIdempotent(results: seq<ExtractionResult>)
    ensures ValidResults(ValidResults(results)) == ValidResults(results)
  {
    if results != [] {
      var head := if Qualifies(results[0]) then [results[0]] else [];
      ValidResultsAppend(head, ValidResults(results[1..]));
      ValidResultsIdempotent(results[1..]);
      if Qualifies(results[0]) {
        assert [results[0]][1..] == [];
      }
    }
  }

  // ------------------------------------------------------------ flattening

  /** JavaScript's `value || fallback` on an optional string: absent and empty both fall back. */
  function OrElse(value: Option<string>, fallback: string): string {
    if value.Some? && value.value != "" then value.value else fallback
  }

  /**
   * The optional-chaining path `d.group?.field` that each data column reads,
   * `None` for the file-name column.
   */
  function SourceField(d: ExtractedData, c: Column): Option<string> {
    match c
    case Arquivo => None
    case Nome => if d.comprador.Some? then d.comprador.value.nome else None
    case NomeRegistroCivil => if d.comprador.Some? then d.comprador.value.nomeRegistroCivil else None
    case FiliacaoMae => if d.comprador.Some? then d.comprador.value.filiacaoMae else None
    case Nacionalidade => if d.comprador.Some? then d.comprador.value.nacionalidade else None
    case RegimeCasamento => if d.comprador.Some? then d.comprador.value.regimeCasamento else None
    case Rg => if d.comprador.Some? then d.comprador.value.rg else None
    case Endereco => if d.comprador.Some? then d.comprador.value.endereco else None
    case Municipio => if d.comprador.Some? then d.comprador.value.municipio else None
    case DataNascimento => if d.comprador.Some? then d.comprador.value.dataNascimento else None
    case EstadoCivil => if d.comprador.Some? then d.comprador.value.estadoCivil else None
    case DataCasamento => if d.comprador.Some? then d.comprador.value.dataCasamento else None
    case Profissao => if d.comprador.Some? then d.comprador.value.profissao else None
    case ConjugeNome => if d.conjuge.Some? then d.conjuge.value.nome else None
    case ConjugeNomeRegistroCivil => if d.conjuge.Some? then d.conjuge.value.nomeRegistroCivil else None
    case ConjugeNacionalidade => if d.conjuge.Some? then d.conjuge.value.nacionalidade else None
    case ConjugeRg => if d.conjuge.Some? then d.conjuge.value.rg else None
    case ConjugeDataNascimento => if d.conjuge.Some? then d.conjuge.value.dataNascimento else None
    case ConjugeEstadoCivil => if d.conjuge.Some? then d.conjuge.value.estadoCivil else None
    case ConjugeProfissao => if d.conjuge.Some? then d.conjuge.value.profissao else None
    case RendaIndividual => if d.renda.Some? then d.renda.value.rendaIndividual else None
    case RendaFamiliar => if d.renda.Some? then d.renda.value.rendaFamiliar else None
    case TipoUnidade => if d.imovel.Some? then d.imovel.value.tipoUnidade else None
    case FracaoIdeal => if d.imovel.Some? then d.imovel.value.fracaoIdeal else None
    case ValorAvaliacaoTerreno => if d.imovel.Some? then d.imovel.value.valorAvaliacaoTerreno else None
    case DescricaoUnidade => if d.imovel.Some? then d.imovel.value.descricaoUnidade else None
  }

  /** The fallback of a data column: "N/A" for the spouse name, the empty string for all others. */
  function Default(c: Column): string {
    if c == ConjugeNome then "N/A" else ""
  }

  /** The text of one column: the file name, or the column's path `|| ` its fallback. */
  function CellValue(fileName: string, d: ExtractedData, c: Column): string {
    if c == Arquivo then fileName else OrElse(SourceField(d, c), Default(c))
  }

  /**
   * One job's data as a row: the file name first, then every field in
   * column order, a field that is absent or empty replaced by its column's
   * fallback.
   */
  function FlattenRow(fileName: string, d: ExtractedData): (row: Row)
    ensures |row| == |Columns| == 26
    ensures forall k :: 0 <= k < |row| ==> row[k].column == Columns[k]
    ensures row[0].column == Arquivo && row[0].value == fileName
    ensures forall k :: 1 <= k < |row| ==>
      var field := SourceField(d, row[k].column);
      && (field.Some? && field.value != "" ==> row[k].value == field.value)
      && (field.None? || field.value == "" ==> row[k].value == if row[k].column == ConjugeNome then "N/A" else "")
  {
    seq(|Columns|, k requires 0 <= k < |Columns| => Cell(Columns[k], CellValue(fileName, d, Columns[k])))
  }

  /**
   * A record without spouse data: the spouse name column reads "N/A" and the
   * six other spouse columns are empty.
   */
  lemma MissingSpouseScenario(fileName: string, d: ExtractedData)
    requires d.conjuge.None?
    ensures var row := FlattenRow(fileName, d);
      && row[13].column == ConjugeNome && row[13].value == "N/A"
      && forall k :: 14 <= k < 20 ==> row[k].value == ""
  {
    PositionsMatch();
  }

  // ------------------------------------------------------------ widths

  /** Math.max(20, key length + 5). */
  function ColumnWidth(key: string): (w: int)
    ensures w >= 20 && w >= |key| + 5
    ensures w == 20 || w == |key| + 5
  {
    if 20 < |key| + 5 then |key| + 5 else 20
  }

  /** The widths of the columns named by the keys of a row, in order. */
  function ColumnWidths(row: Row): (ws: seq<int>)
    ensures |ws| == |row|
    ensures forall k :: 0 <= k < |row| ==> ws[k] == ColumnWidth(Header(row[k].column))
    ensures forall k :: 0 <= k < |row| ==> ws[k] >= 20 && ws[k] >= |Header(row[k].column)| + 5
  {
    seq(|row|, k requires 0 <= k < |row| => ColumnWidth(Header(row[k].column)))
  }

  // ------------------------------------------------------------ the report

  /** The rows, one per qualifying job. */
  function BuildRows(valid: seq<ExtractionResult>): (rows: seq<Row>)
    requires forall x :: x in valid ==> x.data.Some?
    ensures |rows| == |valid|
    ensures forall k :: 0 <= k < |rows| ==> rows[k] == FlattenRow(valid[k].fileName, valid[k].data.value)
  {
    seq(|valid|, k requires 0 <= k < |valid| => FlattenRow(valid[k].fileName, valid[k].data.value))
  }

  /** The workbook built from the qualifying jobs, or `None` when there are none. */
  function ReportOf(valid: seq<ExtractionResult>): (r: Option<Workbook>)
    requires forall k :: 0 <= k < |valid| ==> valid[k].data.Some?
    ensures r.None? <==> valid == []
    ensures r.Some? ==> r.value.sheetName == SheetName && r.value.fileName == OutputFileName
    ensures r.Some? ==>
      && |r.value.rows| == |valid|
      && (forall k :: 0 <= k < |valid| ==> r.value.rows[k] == FlattenRow(valid[k].fileName, valid[k].data.value))
    ensures r.Some? ==>
      && |r.value.widths| == |Columns|
      && forall k :: 0 <= k < |Columns| ==> r.value.widths[k] == ColumnWidth(Header(Columns[k]))
  {
    if |valid| == 0 then None
    else
      var rows := BuildRows(valid);
      Some(Workbook(SheetName, OutputFileName, rows, ColumnWidths(rows[0])))
  }

  /**
   * The whole export: `None` when no job qualifies (the function returns
   * before anything is built), otherwise the workbook with one row per
   * qualifying job, in order, and one width per column.
   */
  function GenerateExcelReport(results: seq<ExtractionResult>): (r: Option<Workbook>)
    ensures r.None? <==> forall i :: 0 <= i < |results| ==> !Qualifies(results[i])
    ensures r.Some? ==> r.value.sheetName == SheetName && r.value.fileName == OutputFileName
    ensures r.Some? ==>
      var valid := ValidResults(results);
      && |r.value.rows| == |valid|
      && (forall k :: 0 <= k < |valid| ==> r.value.rows[k] == FlattenRow(valid[k].fileName, valid[k].data.value))
    ensures r.Some? ==>
      && |r.value.widths| == |Columns|
      && forall k :: 0 <= k < |Columns| ==> r.value.widths[k] == ColumnWidth(Header(Columns[k]))
  {
    var valid := ValidResults(results);
    assert valid == [] <==> forall i :: 0 <= i < |results| ==> !Qualifies(results[i]) by {
      if valid != [] {
        assert valid[0] in valid;
      } else {
        assert forall i :: 0 <= i < |results| ==> results[i] in results;
      }
    }
    ReportOf(valid)
  }

  /** Jobs that do not qualify have no effect on the export, wherever they stand. */
  lemma NonQualifyingIgnored(a: seq<ExtractionResult>, x: ExtractionResult, b: seq<ExtractionResult>)
    requires !Qualifies(x)
    ensures GenerateExcelReport(a + [x] + b) == GenerateExcelReport(a + b)
  {
    assert [x][1..] == [];
    assert ValidResults([x]) == [];
    ValidResultsAppend(a, [x]);
    assert ValidResults(a + [x]) == ValidResults(a);
    ValidResultsAppend(a + [x], b);
    ValidResultsAppend(a, b);
  }

  /** Exporting only the qualifying jobs gives the same workbook as exporting them all. */
  lemma ExportDependsOnlyOnQualifying(results: seq<ExtractionResult>)
    ensures GenerateExcelReport(ValidResults(results)) == GenerateExcelReport(results)
  {
    ValidResultsIdempotent(results);
  }
}

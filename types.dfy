/**
 * The records the extractor works on: the browser file handle, the
 * extracted contract data (four field groups), and one extraction job.
 *
 * The extracted data is the parsed JSON reply of the extraction service,
 * which is never validated locally, so every group and every leaf may be
 * absent: each is an `Option`.
 */
module Types {

  datatype Option<+T> = None | Some(value: T)

  /** A browser file handle: only its name and MIME type are visible to the app. */
  datatype File = File(name: string, mimeType: string)

  /** Buyer identity fields (comprador). */
  datatype BuyerData = BuyerData(
    nome: Option<string>,
    nomeRegistroCivil: Option<string>,
    filiacaoMae: Option<string>,
    nacionalidade: Option<string>,
    regimeCasamento: Option<string>,
    rg: Option<string>,
    endereco: Option<string>,
    municipio: Option<string>,
    dataNascimento: Option<string>,
    estadoCivil: Option<string>,
    dataCasamento: Option<string>,
    profissao: Option<string>)

  /** Spouse identity fields (conjuge). */
  datatype SpouseData = SpouseData(
    nome: Option<string>,
    nomeRegistroCivil: Option<string>,
    nacionalidade: Option<string>,
    rg: Option<string>,
    dataNascimento: Option<string>,
    estadoCivil: Option<string>,
    profissao: Option<string>)

  /** Income figures (renda). */
  datatype IncomeData = IncomeData(
    rendaIndividual: Option<string>,
    rendaFamiliar: Option<string>)

  /** Property description fields (imovel). */
  datatype PropertyData = PropertyData(
    tipoUnidade: Option<string>,
    fracaoIdeal: Option<string>,
    valorAvaliacaoTerreno: Option<string>,
    descricaoUnidade: Option<string>)

  /** The structured record returned by the extraction service. */
  datatype ExtractedData = ExtractedData(
    comprador: Option<BuyerData>,
    conjuge: Option<SpouseData>,
    renda: Option<IncomeData>,
    imovel: Option<PropertyData>)

  datatype Status = Pending | Processing | Success | Error

  /**
   * One job of the list. `file` is the transient handle attached at intake;
   * `data` and `error` are filled in by processing.
   */
  datatype ExtractionResult = ExtractionResult(
    fileName: string,
    status: Status,
    data: Option<ExtractedData>,
    error: Option<string>,
    file: Option<File>)
}

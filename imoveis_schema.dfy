/**
 * The property listing of the catalogue, and the search criteria the catalogue is queried
 * with. Prices are in centavos and areas in square metres.
 */
module ImoveisSchema {
  import opened Wrappers

  /** TIPO_IMOVEL. */
  datatype TipoImovel =
    | Apartamento | Casa | Terreno | SalaComercial | Loja | Galpao | Cobertura | Kitnet | Chacara | Fazenda

  /** TIPO_NEGOCIO. */
  datatype TipoNegocio = Venda | Aluguel | VendaAluguel

  /** STATUS_IMOVEL. */
  datatype StatusImovel = Disponivel | Reservado | Vendido | Alugado | Inativo

  const StatusImovelTodos: seq<StatusImovel> := [Disponivel, Reservado, Vendido, Alugado, Inativo]

  lemma StatusImovelTodosCompleto()
    ensures forall s: StatusImovel :: s in StatusImovelTodos
    ensures forall i, j :: 0 <= i < j < |StatusImovelTodos| ==> StatusImovelTodos[i] != StatusImovelTodos[j]
  {
    forall s: StatusImovel ensures s in StatusImovelTodos {
      match s
      case Disponivel => assert StatusImovelTodos[0] == s;
      case Reservado => assert StatusImovelTodos[1] == s;
      case Vendido => assert StatusImovelTodos[2] == s;
      case Alugado => assert StatusImovelTodos[3] == s;
      case Inativo => assert StatusImovelTodos[4] == s;
    }
  }

  datatype Endereco = Endereco(
    logradouro: Option<string>,
    numero: Option<string>,
    complemento: Option<string>,
    bairro: Option<string>,
    cidade: string,
    estado: string,
    cep: Option<string>,
    latitude: Option<real>,
    longitude: Option<real>)

  datatype Imovel = Imovel(
    id: string,
    tipo: TipoImovel,
    negocio: TipoNegocio,
    status: StatusImovel,
    titulo: string,
    descricao: Option<string>,
    endereco: Endereco,
    quartos: Option<int>,
    suites: Option<int>,
    banheiros: Option<int>,
    vagas: Option<int>,
    areaUtil: Option<real>,
    areaTotal: Option<real>,
    andarPavimento: Option<int>,
    preco: Option<real>,
    precoCondominio: Option<real>,
    precoIptu: Option<real>,
    precoAluguel: Option<real>,
    amenidades: Option<seq<string>>,
    fotos: Option<seq<string>>,
    videos: Option<seq<string>>,
    corretorNome: Option<string>,
    corretorCreci: Option<string>,
    corretorTelefone: Option<string>,
    criadoEm: int,
    atualizadoEm: int,
    observacoes: Option<string>)

  /** CriteriosBusca: every key is optional. */
  datatype CriteriosBusca = CriteriosBusca(
    tipo: Option<seq<TipoImovel>>,
    negocio: Option<TipoNegocio>,
    status: Option<seq<StatusImovel>>,
    cidade: Option<string>,
    estado: Option<string>,
    bairro: Option<string>,
    precoMin: Option<real>,
    precoMax: Option<real>,
    quartosMin: Option<int>,
    quartosMax: Option<int>,
    suitesMin: Option<int>,
    banheirosMin: Option<int>,
    vagasMin: Option<int>,
    areaUtilMin: Option<real>,
    areaUtilMax: Option<real>,
    amenidades: Option<seq<string>>,
    texto: Option<string>)

  /** `{}`: no criterion at all. */
  const SemCriterios := CriteriosBusca(None, None, None, None, None, None, None, None, None, None, None, None, None, None, None, None, None)
}

/**
 * The property catalogue: the `imoveis` table held in memory in insertion order, with the
 * queries and updates the SQL of the catalogue store performs on it. The clock and the fresh
 * UUIDs are parameters. NULL columns are `None`; a comparison with NULL is never true.
 */
module ImoveisTables {
  import opened Wrappers
  import opened Text
  import opened Sql
  import opened ImoveisSchema

  // ---------------------------------------------------------------------------------------
  // Keys

  function IdsImoveis(s: seq<Imovel>): (ids: seq<string>)
    ensures |ids| == |s|
  {
    seq(|s|, i requires 0 <= i < |s| => s[i].id)
  }

  predicate IdsImoveisUnicos(s: seq<Imovel>) {
    forall i, j :: 0 <= i < j < |s| ==> s[i].id != s[j].id
  }

  /** The position of the listing with primary key `id`. */
  function IndiceImovel(s: seq<Imovel>, id: string): (r: Option<nat>)
    ensures r.Some? ==> r.value < |s| && s[r.value].id == id
    ensures r.None? <==> id !in IdsImoveis(s)
  {
    var r := Primeiro(s, (x: Imovel) => x.id == id);
    if r.None? then
      assert forall k :: 0 <= k < |s| ==> IdsImoveis(s)[k] != id;
      r
    else
      assert IdsImoveis(s)[r.value] == id;
      r
  }

  lemma IdsImoveisSubstituir(s: seq<Imovel>, i: nat, x: Imovel)
    requires i < |s| && x.id == s[i].id
    ensures IdsImoveis(s[i := x]) == IdsImoveis(s)
    ensures IdsImoveisUnicos(s) ==> IdsImoveisUnicos(s[i := x])
  {
  }

  lemma IdsImoveisAcrescentar(s: seq<Imovel>, x: Imovel)
    ensures IdsImoveis(s + [x]) == IdsImoveis(s) + [x.id]
    ensures IdsImoveisUnicos(s) && x.id !in IdsImoveis(s) ==> IdsImoveisUnicos(s + [x])
  {
    if IdsImoveisUnicos(s) && x.id !in IdsImoveis(s) {
      forall i, j | 0 <= i < j < |s + [x]| ensures (s + [x])[i].id != (s + [x])[j].id {
        if j == |s| {
          assert IdsImoveis(s)[i] == s[i].id;
        }
      }
    }
  }

  /** `DELETE FROM imoveis WHERE id = ?`: the table without the rows that have key `id`, in order. */
  function SemImovel(s: seq<Imovel>, id: string): (r: seq<Imovel>)
    decreases |s|
    ensures forall x :: x in r <==> x in s && x.id != id
  {
    if s == [] then []
    else
      assert forall x :: x in s <==> x == s[0] || x in s[1..];
      if s[0].id == id then SemImovel(s[1..], id) else [s[0]] + SemImovel(s[1..], id)
  }

  lemma IdsImoveisCauda(s: seq<Imovel>, id: string)
    requires s != []
    ensures id in IdsImoveis(s) <==> s[0].id == id || id in IdsImoveis(s[1..])
  {
    if id in IdsImoveis(s) {
      var k :| 0 <= k < |s| && IdsImoveis(s)[k] == id;
      if k > 0 {
        assert IdsImoveis(s[1..])[k - 1] == id;
      }
    }
    if id in IdsImoveis(s[1..]) {
      var k :| 0 <= k < |s| - 1 && IdsImoveis(s[1..])[k] == id;
      assert IdsImoveis(s)[k + 1] == id;
    }
    assert IdsImoveis(s)[0] == s[0].id;
  }

  lemma IdsImoveisUnicosCauda(s: seq<Imovel>)
    requires s != [] && IdsImoveisUnicos(s)
    ensures IdsImoveisUnicos(s[1..])
    ensures forall x :: x in s[1..] ==> x.id != s[0].id
  {
    forall i, j | 0 <= i < j < |s| - 1 ensures s[1..][i].id != s[1..][j].id {
      assert s[1..][i] == s[i + 1] && s[1..][j] == s[j + 1];
    }
    forall x | x in s[1..] ensures x.id != s[0].id {
      var j :| 0 <= j < |s[1..]| && s[1..][j] == x;
      assert s[j + 1] == x;
    }
  }

  lemma IdsImoveisUnicosCons(x: Imovel, r: seq<Imovel>)
    requires IdsImoveisUnicos(r) && forall y :: y in r ==> y.id != x.id
    ensures IdsImoveisUnicos([x] + r)
  {
    var t := [x] + r;
    forall i, j | 0 <= i < j < |t| ensures t[i].id != t[j].id {
      assert t[j] == r[j - 1];
      if i > 0 {
        assert t[i] == r[i - 1];
      }
    }
  }

  /** With unique keys, a delete removes exactly one row when the key is present and none otherwise. */
  lemma {:induction false} SemImovelUnicos(s: seq<Imovel>, id: string)
    requires IdsImoveisUnicos(s)
    decreases |s|
    ensures IdsImoveisUnicos(SemImovel(s, id))
    ensures |SemImovel(s, id)| == if id in IdsImoveis(s) then |s| - 1 else |s|
  {
    if s != [] {
      IdsImoveisUnicosCauda(s);
      SemImovelUnicos(s[1..], id);
      IdsImoveisCauda(s, id);
      if s[0].id == id {
        assert id !in IdsImoveis(s[1..]) by {
          forall k | 0 <= k < |s| - 1 ensures IdsImoveis(s[1..])[k] != id {
            assert s[1..][k] in s[1..];
          }
        }
      } else {
        IdsImoveisUnicosCons(s[0], SemImovel(s[1..], id));
      }
    }
  }

  // ---------------------------------------------------------------------------------------
  // Partial updates

  /** The address part of an update; a missing `endereco` is the update that keeps every field. */
  datatype EnderecoPatch = EnderecoPatch(
    logradouro: Patch<Option<string>>,
    numero: Patch<Option<string>>,
    complemento: Patch<Option<string>>,
    bairro: Patch<Option<string>>,
    cidade: Patch<string>,
    estado: Patch<string>,
    cep: Patch<Option<string>>,
    latitude: Patch<Option<real>>,
    longitude: Patch<Option<real>>)

  /** `{}` as an address update. */
  const EnderecoIntacto := EnderecoPatch(Keep, Keep, Keep, Keep, Keep, Keep, Keep, Keep, Keep)

  /** `{ ...existente.endereco, ...(dados.endereco ?? {}) }`: the address merged field by field. */
  function MesclarEndereco(e: Endereco, p: EnderecoPatch): (r: Endereco)
    ensures p == EnderecoIntacto ==> r == e
    ensures Campo(p.logradouro, e.logradouro, r.logradouro) && Campo(p.numero, e.numero, r.numero)
    ensures Campo(p.complemento, e.complemento, r.complemento) && Campo(p.bairro, e.bairro, r.bairro)
    ensures Campo(p.cidade, e.cidade, r.cidade) && Campo(p.estado, e.estado, r.estado)
    ensures Campo(p.cep, e.cep, r.cep) && Campo(p.latitude, e.latitude, r.latitude)
    ensures Campo(p.longitude, e.longitude, r.longitude)
  {
    Endereco(
      p.logradouro.Apply(e.logradouro),
      p.numero.Apply(e.numero),
      p.complemento.Apply(e.complemento),
      p.bairro.Apply(e.bairro),
      p.cidade.Apply(e.cidade),
      p.estado.Apply(e.estado),
      p.cep.Apply(e.cep),
      p.latitude.Apply(e.latitude),
      p.longitude.Apply(e.longitude))
  }

  /** `Partial<Omit<Imovel, "id" | "criadoEm">>`, without the overwritten `atualizadoEm`. */
  datatype ImovelPatch = ImovelPatch(
    tipo: Patch<TipoImovel>,
    negocio: Patch<TipoNegocio>,
    status: Patch<StatusImovel>,
    titulo: Patch<string>,
    descricao: Patch<Option<string>>,
    endereco: EnderecoPatch,
    quartos: Patch<Option<int>>,
    suites: Patch<Option<int>>,
    banheiros: Patch<Option<int>>,
    vagas: Patch<Option<int>>,
    areaUtil: Patch<Option<real>>,
    areaTotal: Patch<Option<real>>,
    andarPavimento: Patch<Option<int>>,
    preco: Patch<Option<real>>,
    precoCondominio: Patch<Option<real>>,
    precoIptu: Patch<Option<real>>,
    precoAluguel: Patch<Option<real>>,
    amenidades: Patch<Option<seq<string>>>,
    fotos: Patch<Option<seq<string>>>,
    videos: Patch<Option<seq<string>>>,
    corretorNome: Patch<Option<string>>,
    corretorCreci: Patch<Option<string>>,
    corretorTelefone: Patch<Option<string>>,
    observacoes: Patch<Option<string>>)

  /** `{}` */
  const ImovelIntacto := ImovelPatch(Keep, Keep, Keep, Keep, Keep, EnderecoIntacto, Keep, Keep, Keep, Keep,
    Keep, Keep, Keep, Keep, Keep, Keep, Keep, Keep, Keep, Keep, Keep, Keep, Keep, Keep)

  /**
   * `{ ...existente, ...dados, id, criadoEm: existente.criadoEm, atualizadoEm: agora, endereco }`:
   * the key and the creation time survive whatever the update says, the update time is now,
   * and the address is merged rather than replaced.
   */
  function MesclarImovel(x: Imovel, p: ImovelPatch, agora: int): (r: Imovel)
    ensures r.id == x.id && r.criadoEm == x.criadoEm && r.atualizadoEm == agora
    ensures r.endereco == MesclarEndereco(x.endereco, p.endereco)
    ensures Campo(p.tipo, x.tipo, r.tipo) && Campo(p.negocio, x.negocio, r.negocio)
    ensures Campo(p.status, x.status, r.status) && Campo(p.titulo, x.titulo, r.titulo)
    ensures Campo(p.descricao, x.descricao, r.descricao)
    ensures Campo(p.quartos, x.quartos, r.quartos) && Campo(p.suites, x.suites, r.suites)
    ensures Campo(p.banheiros, x.banheiros, r.banheiros) && Campo(p.vagas, x.vagas, r.vagas)
    ensures Campo(p.areaUtil, x.areaUtil, r.areaUtil) && Campo(p.areaTotal, x.areaTotal, r.areaTotal)
    ensures Campo(p.andarPavimento, x.andarPavimento, r.andarPavimento)
    ensures Campo(p.preco, x.preco, r.preco) && Campo(p.precoCondominio, x.precoCondominio, r.precoCondominio)
    ensures Campo(p.precoIptu, x.precoIptu, r.precoIptu) && Campo(p.precoAluguel, x.precoAluguel, r.precoAluguel)
    ensures Campo(p.amenidades, x.amenidades, r.amenidades) && Campo(p.fotos, x.fotos, r.fotos)
    ensures Campo(p.videos, x.videos, r.videos) && Campo(p.corretorNome, x.corretorNome, r.corretorNome)
    ensures Campo(p.corretorCreci, x.corretorCreci, r.corretorCreci)
    ensures Campo(p.corretorTelefone, x.corretorTelefone, r.corretorTelefone)
    ensures Campo(p.observacoes, x.observacoes, r.observacoes)
  {
    Imovel(
      x.id,
      p.tipo.Apply(x.tipo),
      p.negocio.Apply(x.negocio),
      p.status.Apply(x.status),
      p.titulo.Apply(x.titulo),
      p.descricao.Apply(x.descricao),
      MesclarEndereco(x.endereco, p.endereco),
      p.quartos.Apply(x.quartos),
      p.suites.Apply(x.suites),
      p.banheiros.Apply(x.banheiros),
      p.vagas.Apply(x.vagas),
      p.areaUtil.Apply(x.areaUtil),
      p.areaTotal.Apply(x.areaTotal),
      p.andarPavimento.Apply(x.andarPavimento),
      p.preco.Apply(x.preco),
      p.precoCondominio.Apply(x.precoCondominio),
      p.precoIptu.Apply(x.precoIptu),
      p.precoAluguel.Apply(x.precoAluguel),
      p.amenidades.Apply(x.amenidades),
      p.fotos.Apply(x.fotos),
      p.videos.Apply(x.videos),
      p.corretorNome.Apply(x.corretorNome),
      p.corretorCreci.Apply(x.corretorCreci),
      p.corretorTelefone.Apply(x.corretorTelefone),
      x.criadoEm,
      agora,
      p.observacoes.Apply(x.observacoes))
  }

  /** An empty update only moves the update time. */
  lemma MesclarImovelVazio(x: Imovel, agora: int)
    ensures MesclarImovel(x, ImovelIntacto, agora) == x.(atualizadoEm := agora)
  {
  }

  /**
   * Updating one field of the address keeps the rest of it: moving a listing to another city
   * leaves its street, number and neighbourhood as they were.
   */
  lemma MesclarSoCidade(x: Imovel, cidade: string, agora: int)
    ensures MesclarImovel(x, ImovelIntacto.(endereco := EnderecoIntacto.(cidade := Set(cidade))), agora)
      == x.(endereco := x.endereco.(cidade := cidade), atualizadoEm := agora)
  {
  }

  // ---------------------------------------------------------------------------------------
  // Listing

  /** The filters of `listar`. */
  datatype FiltroImoveis = FiltroImoveis(status: Option<StatusImovel>, tipo: Option<TipoImovel>, limite: Option<int>)

  predicate AceitaImovel(f: FiltroImoveis, x: Imovel) {
    (f.status.None? || x.status == f.status.value) && (f.tipo.None? || x.tipo == f.tipo.value)
  }

  /** `ORDER BY atualizado_em DESC`, as an ascending key. */
  function MaisRecente(x: Imovel): int {
    -x.atualizadoEm
  }

  /**
   * `listar`: the listings that pass the status and type filters, most recently updated first,
   * at most `limite` of them (50 when no limit is given).
   */
  function Listagem(s: seq<Imovel>, f: FiltroImoveis): (r: seq<Imovel>)
    ensures forall i :: 0 <= i < |r| ==> r[i] in s && AceitaImovel(f, r[i])
    ensures multiset(r) <= multiset(s)
    ensures forall i, j :: 0 <= i < j < |r| ==> r[i].atualizadoEm >= r[j].atualizadoEm
    ensures 0 <= f.limite.GetOr(50) ==> |r| <= f.limite.GetOr(50)
    ensures f.limite.GetOr(50) < 0 || |Filtrar(s, (x: Imovel) => AceitaImovel(f, x))| <= f.limite.GetOr(50)
      ==> multiset(r) == multiset(Filtrar(s, (x: Imovel) => AceitaImovel(f, x)))
  {
    Consulta(s, (x: Imovel) => AceitaImovel(f, x), MaisRecente, f.limite.GetOr(50))
  }

  // ---------------------------------------------------------------------------------------
  // Search: the reference predicate

  /** How many criteria `buscar` tests. */
  const NumCriterios := 14

  /** `LOWER(coluna) LIKE LOWER(padrao)`; a NULL column never matches. */
  predicate Como(coluna: Option<string>, padrao: string) {
    coluna.Some? && Like(LowerAscii(coluna.value), LowerAscii(padrao))
  }

  /** `coluna >= v` and `coluna <= v` on a nullable column. */
  predicate AoMenos(coluna: Option<real>, v: real) {
    coluna.Some? && coluna.value >= v
  }

  predicate NoMaximo(coluna: Option<real>, v: real) {
    coluna.Some? && coluna.value <= v
  }

  predicate AoMenosInt(coluna: Option<int>, v: int) {
    coluna.Some? && coluna.value >= v
  }

  predicate NoMaximoInt(coluna: Option<int>, v: int) {
    coluna.Some? && coluna.value <= v
  }

  /** Criterion `k` of `buscar`, in the order the source tests them; an absent criterion accepts every row. */
  predicate Criterio(c: CriteriosBusca, x: Imovel, k: nat) {
    match k
    case 0 => c.tipo.None? || c.tipo.value == [] || x.tipo in c.tipo.value
    case 1 => c.negocio.None? || x.negocio == c.negocio.value || x.negocio == VendaAluguel
    case 2 => c.status.None? || c.status.value == [] || x.status in c.status.value
    case 3 => !Preenchido(c.cidade) || LowerAscii(x.endereco.cidade) == LowerAscii(c.cidade.value)
    case 4 => !Preenchido(c.estado) || LowerAscii(x.endereco.estado) == LowerAscii(c.estado.value)
    case 5 => !Preenchido(c.bairro) || Como(x.endereco.bairro, "%" + c.bairro.value + "%")
    case 6 => c.precoMin.None? || AoMenos(x.preco, c.precoMin.value)
    case 7 => c.precoMax.None? || NoMaximo(x.preco, c.precoMax.value)
    case 8 => c.quartosMin.None? || AoMenosInt(x.quartos, c.quartosMin.value)
    case 9 => c.quartosMax.None? || NoMaximoInt(x.quartos, c.quartosMax.value)
    case 10 => c.vagasMin.None? || AoMenosInt(x.vagas, c.vagasMin.value)
    case 11 => c.areaUtilMin.None? || AoMenos(x.areaUtil, c.areaUtilMin.value)
    case 12 => c.areaUtilMax.None? || NoMaximo(x.areaUtil, c.areaUtilMax.value)
    case 13 =>
      !Preenchido(c.texto)
      || Como(Some(x.titulo), "%" + c.texto.value + "%")
      || Como(x.descricao, "%" + c.texto.value + "%")
      || Como(x.endereco.bairro, "%" + c.texto.value + "%")
    case _ => true
  }

  /** The listing meets the first `n` criteria. */
  predicate CriteriosAte(c: CriteriosBusca, x: Imovel, n: nat) {
    forall k :: 0 <= k < n ==> Criterio(c, x, k)
  }

  /** The listing meets every criterion `buscar` tests. */
  predicate Corresponde(c: CriteriosBusca, x: Imovel) {
    CriteriosAte(c, x, NumCriterios)
  }

  function FiltroBusca(c: CriteriosBusca): Imovel -> bool {
    (x: Imovel) => Corresponde(c, x)
  }

  /**
   * What `buscar` returns: the listings that meet every criterion, most recently updated
   * first, at most 50 of them, and all of them when no more than 50 match.
   */
  function Busca(s: seq<Imovel>, c: CriteriosBusca): (r: seq<Imovel>)
    ensures forall i :: 0 <= i < |r| ==> r[i] in s && Corresponde(c, r[i])
    ensures multiset(r) <= multiset(s)
    ensures forall i, j :: 0 <= i < j < |r| ==> r[i].atualizadoEm >= r[j].atualizadoEm
    ensures |r| <= 50
    ensures |Filtrar(s, FiltroBusca(c))| <= 50 ==> multiset(r) == multiset(Filtrar(s, FiltroBusca(c)))
  {
    Consulta(s, FiltroBusca(c), MaisRecente, 50)
  }

  // ---------------------------------------------------------------------------------------
  // Search: what the criteria mean

  /**
   * A criterion the source declares but never turns into SQL: whatever the suites, bathrooms
   * and amenities asked for, the same listings come back.
   */
  lemma BuscaIgnora(s: seq<Imovel>, c: CriteriosBusca, suites: Option<int>, banheiros: Option<int>,
                    amenidades: Option<seq<string>>)
    ensures Busca(s, c.(suitesMin := suites, banheirosMin := banheiros, amenidades := amenidades)) == Busca(s, c)
  {
    var d := c.(suitesMin := suites, banheirosMin := banheiros, amenidades := amenidades);
    forall x: Imovel, k | 0 <= k < NumCriterios ensures Criterio(d, x, k) == Criterio(c, x, k) {
    }
    ConsultaMesmoFiltro(s, FiltroBusca(d), FiltroBusca(c), MaisRecente, 50);
  }

  /**
   * The source tests the text criteria and the lists for truthiness: an empty string or an
   * empty list is the same as no criterion at all.
   */
  lemma VaziosSaoAusentes(c: CriteriosBusca, x: Imovel)
    ensures Corresponde(c.(tipo := Some([]), status := Some([]), cidade := Some(""), estado := Some(""),
                           bairro := Some(""), texto := Some("")), x)
        == Corresponde(c.(tipo := None, status := None, cidade := None, estado := None,
                          bairro := None, texto := None), x)
  {
    var d := c.(tipo := Some([]), status := Some([]), cidade := Some(""), estado := Some(""),
                bairro := Some(""), texto := Some(""));
    var e := c.(tipo := None, status := None, cidade := None, estado := None, bairro := None, texto := None);
    forall k | 0 <= k < NumCriterios ensures Criterio(d, x, k) == Criterio(e, x, k) {
    }
  }

  /** With no criteria every listing matches: the search is the 50 most recently updated listings. */
  lemma SemCriteriosTudo(s: seq<Imovel>)
    requires |s| <= 50
    ensures multiset(Busca(s, SemCriterios)) == multiset(s)
  {
    forall i | 0 <= i < |s| ensures FiltroBusca(SemCriterios)(s[i]) {
      forall k | 0 <= k < NumCriterios ensures Criterio(SemCriterios, s[i], k) {
      }
    }
    FiltrarTudo(s, FiltroBusca(SemCriterios));
  }

  /**
   * Every listing the search returns meets the bounds it was given, inclusive at both ends,
   * and a `negocio` criterion is met by the listing's own kind of deal or by `venda_aluguel`.
   */
  lemma CorrespondeLimites(c: CriteriosBusca, x: Imovel)
    requires Corresponde(c, x)
    ensures c.negocio.Some? ==> x.negocio == c.negocio.value || x.negocio == VendaAluguel
    ensures c.precoMin.Some? ==> x.preco.Some? && c.precoMin.value <= x.preco.value
    ensures c.precoMax.Some? ==> x.preco.Some? && x.preco.value <= c.precoMax.value
    ensures c.quartosMin.Some? ==> x.quartos.Some? && c.quartosMin.value <= x.quartos.value
    ensures c.quartosMax.Some? ==> x.quartos.Some? && x.quartos.value <= c.quartosMax.value
    ensures c.vagasMin.Some? ==> x.vagas.Some? && c.vagasMin.value <= x.vagas.value
    ensures c.areaUtilMin.Some? ==> x.areaUtil.Some? && c.areaUtilMin.value <= x.areaUtil.value
    ensures c.areaUtilMax.Some? ==> x.areaUtil.Some? && x.areaUtil.value <= c.areaUtilMax.value
  {
    assert Criterio(c, x, 1) && Criterio(c, x, 6) && Criterio(c, x, 7) && Criterio(c, x, 8);
    assert Criterio(c, x, 9) && Criterio(c, x, 10) && Criterio(c, x, 11) && Criterio(c, x, 12);
  }

  /**
   * Conversely, a listing that meets every other criterion and lies within the numeric bounds,
   * the bounds themselves included, is matched: a listing priced exactly at `precoMax` is found.
   */
  lemma LimitesBastam(c: CriteriosBusca, x: Imovel)
    requires forall k :: 0 <= k < NumCriterios && !(6 <= k <= 12) ==> Criterio(c, x, k)
    requires c.precoMin.Some? ==> x.preco.Some? && c.precoMin.value <= x.preco.value
    requires c.precoMax.Some? ==> x.preco.Some? && x.preco.value <= c.precoMax.value
    requires c.quartosMin.Some? ==> x.quartos.Some? && c.quartosMin.value <= x.quartos.value
    requires c.quartosMax.Some? ==> x.quartos.Some? && x.quartos.value <= c.quartosMax.value
    requires c.vagasMin.Some? ==> x.vagas.Some? && c.vagasMin.value <= x.vagas.value
    requires c.areaUtilMin.Some? ==> x.areaUtil.Some? && c.areaUtilMin.value <= x.areaUtil.value
    requires c.areaUtilMax.Some? ==> x.areaUtil.Some? && x.areaUtil.value <= c.areaUtilMax.value
    ensures Corresponde(c, x)
  {
    forall k | 0 <= k < NumCriterios ensures Criterio(c, x, k) {
    }
  }

  /** A `LIKE '%w%'` on a nullable column, for a wildcard-free `w`, is a case-insensitive substring test. */
  lemma ComoContem(coluna: Option<string>, w: string)
    requires SemCuringa(w)
    ensures Como(coluna, "%" + w + "%") <==> coluna.Some? && Contains(LowerAscii(coluna.value), LowerAscii(w))
  {
    if coluna.Some? {
      LikeMinusculas(coluna.value, "%" + w + "%");
      LikeContem(coluna.value, w);
    }
  }

  /**
   * `bairro` and `texto` are case-insensitive substring searches (for terms without `%` or
   * `_`): the neighbourhood must contain the `bairro` term, and the title, the description or
   * the neighbourhood must contain the `texto` term.
   */
  lemma BuscaPorSubstring(c: CriteriosBusca, x: Imovel)
    requires Preenchido(c.bairro) ==> SemCuringa(c.bairro.value)
    requires Preenchido(c.texto) ==> SemCuringa(c.texto.value)
    ensures Preenchido(c.bairro) ==>
      (Criterio(c, x, 5) <==>
        x.endereco.bairro.Some? && Contains(LowerAscii(x.endereco.bairro.value), LowerAscii(c.bairro.value)))
    ensures Preenchido(c.texto) ==>
      (Criterio(c, x, 13) <==>
        Contains(LowerAscii(x.titulo), LowerAscii(c.texto.value))
        || (x.descricao.Some? && Contains(LowerAscii(x.descricao.value), LowerAscii(c.texto.value)))
        || (x.endereco.bairro.Some? && Contains(LowerAscii(x.endereco.bairro.value), LowerAscii(c.texto.value))))
  {
    if Preenchido(c.bairro) {
      ComoContem(x.endereco.bairro, c.bairro.value);
    }
    if Preenchido(c.texto) {
      ComoContem(Some(x.titulo), c.texto.value);
      ComoContem(x.descricao, c.texto.value);
      ComoContem(x.endereco.bairro, c.texto.value);
    }
  }

  // ---------------------------------------------------------------------------------------
  // Search: the WHERE clause `buscar` assembles

  /** The numeric columns `buscar` bounds. */
  datatype ColunaReal = Preco | AreaUtil
  datatype ColunaInteira = Quartos | Vagas

  function ValorReal(x: Imovel, col: ColunaReal): Option<real> {
    match col
    case Preco => x.preco
    case AreaUtil => x.areaUtil
  }

  function ValorInteiro(x: Imovel, col: ColunaInteira): Option<int> {
    match col
    case Quartos => x.quartos
    case Vagas => x.vagas
  }

  /** One conjunct of the `WHERE` clause, with its parameters bound. */
  datatype Condicao =
    | TipoEm(tipos: seq<TipoImovel>)
    | NegocioOuAmbos(negocio: TipoNegocio)
    | StatusEm(estados: seq<StatusImovel>)
    | CidadeIgual(cidade: string)
    | EstadoIgual(uf: string)
    | BairroComo(padrao: string)
    | RealDesde(colunaReal: ColunaReal, minimo: real)
    | RealAte(colunaReal: ColunaReal, maximo: real)
    | InteiroDesde(colunaInteira: ColunaInteira, piso: int)
    | InteiroAte(colunaInteira: ColunaInteira, teto: int)
    | TextoComo(padrao: string)

  /** SQLite's reading of one conjunct on a row: a NULL operand makes a comparison fail. */
  predicate Satisfaz(x: Imovel, w: Condicao) {
    match w
    case TipoEm(ts) => x.tipo in ts
    case NegocioOuAmbos(n) => x.negocio == n || x.negocio == VendaAluguel
    case StatusEm(ss) => x.status in ss
    case CidadeIgual(v) => LowerAscii(x.endereco.cidade) == LowerAscii(v)
    case EstadoIgual(v) => LowerAscii(x.endereco.estado) == LowerAscii(v)
    case BairroComo(p) => Como(x.endereco.bairro, p)
    case RealDesde(col, v) => AoMenos(ValorReal(x, col), v)
    case RealAte(col, v) => NoMaximo(ValorReal(x, col), v)
    case InteiroDesde(col, v) => AoMenosInt(ValorInteiro(x, col), v)
    case InteiroAte(col, v) => NoMaximoInt(ValorInteiro(x, col), v)
    case TextoComo(p) => Como(Some(x.titulo), p) || Como(x.descricao, p) || Como(x.endereco.bairro, p)
  }

  /** `WHERE c1 AND c2 AND ...`; no conjunct at all is no `WHERE` clause. */
  predicate SatisfazTodas(x: Imovel, ws: seq<Condicao>) {
    forall k :: 0 <= k < |ws| ==> Satisfaz(x, ws[k])
  }

  /** The conjuncts gathered so far select exactly the listings that meet the first `n` criteria. */
  ghost predicate Reflete(ws: seq<Condicao>, c: CriteriosBusca, n: nat) {
    forall x :: SatisfazTodas(x, ws) <==> CriteriosAte(c, x, n)
  }

  /** One `if` of `buscar`: criterion `k` either adds a conjunct that means it, or imposes nothing. */
  lemma Passo(antes: seq<Condicao>, depois: seq<Condicao>, w: Condicao, c: CriteriosBusca, k: nat)
    requires Reflete(antes, c, k)
    requires (depois == antes + [w] && forall x :: Satisfaz(x, w) <==> Criterio(c, x, k))
          || (depois == antes && forall x :: Criterio(c, x, k))
    ensures Reflete(depois, c, k + 1)
  {
    forall x ensures SatisfazTodas(x, depois) <==> CriteriosAte(c, x, k + 1) {
      assert CriteriosAte(c, x, k + 1) <==> CriteriosAte(c, x, k) && Criterio(c, x, k);
      if depois == antes + [w] {
        assert forall j :: 0 <= j < |antes| ==> depois[j] == antes[j];
        assert depois[|antes|] == w;
        assert SatisfazTodas(x, depois) <==> SatisfazTodas(x, antes) && Satisfaz(x, w);
      }
    }
  }

  /** `buscar`'s conjuncts for the kind of property, of deal and the listing status. */
  method CondicoesDeCategoria(onde0: seq<Condicao>, c: CriteriosBusca) returns (onde: seq<Condicao>)
    requires Reflete(onde0, c, 0)
    ensures Reflete(onde, c, 3)
  {
    onde := onde0;
    ghost var antes := onde;
    if c.tipo.Some? && |c.tipo.value| > 0 {
      onde := onde + [TipoEm(c.tipo.value)];
    }
    Passo(antes, onde, TipoEm(c.tipo.GetOr([])), c, 0);
    antes := onde;
    if c.negocio.Some? {
      onde := onde + [NegocioOuAmbos(c.negocio.value)];
    }
    Passo(antes, onde, NegocioOuAmbos(c.negocio.GetOr(Venda)), c, 1);
    antes := onde;
    if c.status.Some? && |c.status.value| > 0 {
      onde := onde + [StatusEm(c.status.value)];
    }
    Passo(antes, onde, StatusEm(c.status.GetOr([])), c, 2);
  }

  /** `buscar`'s conjuncts for the city, the state and the neighbourhood. */
  method CondicoesDeLocal(onde0: seq<Condicao>, c: CriteriosBusca) returns (onde: seq<Condicao>)
    requires Reflete(onde0, c, 3)
    ensures Reflete(onde, c, 6)
  {
    onde := onde0;
    ghost var antes := onde;
    if Preenchido(c.cidade) {
      onde := onde + [CidadeIgual(c.cidade.value)];
    }
    Passo(antes, onde, CidadeIgual(c.cidade.GetOr("")), c, 3);
    antes := onde;
    if Preenchido(c.estado) {
      onde := onde + [EstadoIgual(c.estado.value)];
    }
    Passo(antes, onde, EstadoIgual(c.estado.GetOr("")), c, 4);
    antes := onde;
    if Preenchido(c.bairro) {
      onde := onde + [BairroComo("%" + c.bairro.value + "%")];
    }
    Passo(antes, onde, BairroComo("%" + c.bairro.GetOr("") + "%"), c, 5);
  }

  /** `buscar`'s conjuncts for the price bounds. */
  method CondicoesDePreco(onde0: seq<Condicao>, c: CriteriosBusca) returns (onde: seq<Condicao>)
    requires Reflete(onde0, c, 6)
    ensures Reflete(onde, c, 8)
  {
    onde := onde0;
    ghost var antes := onde;
    if c.precoMin.Some? {
      onde := onde + [RealDesde(Preco, c.precoMin.value)];
    }
    Passo(antes, onde, RealDesde(Preco, c.precoMin.GetOr(0.0)), c, 6);
    antes := onde;
    if c.precoMax.Some? {
      onde := onde + [RealAte(Preco, c.precoMax.value)];
    }
    Passo(antes, onde, RealAte(Preco, c.precoMax.GetOr(0.0)), c, 7);
  }

  /** `buscar`'s conjuncts for the bedroom and parking-space bounds. */
  method CondicoesDeComodos(onde0: seq<Condicao>, c: CriteriosBusca) returns (onde: seq<Condicao>)
    requires Reflete(onde0, c, 8)
    ensures Reflete(onde, c, 11)
  {
    onde := onde0;
    ghost var antes := onde;
    if c.quartosMin.Some? {
      onde := onde + [InteiroDesde(Quartos, c.quartosMin.value)];
    }
    Passo(antes, onde, InteiroDesde(Quartos, c.quartosMin.GetOr(0)), c, 8);
    antes := onde;
    if c.quartosMax.Some? {
      onde := onde + [InteiroAte(Quartos, c.quartosMax.value)];
    }
    Passo(antes, onde, InteiroAte(Quartos, c.quartosMax.GetOr(0)), c, 9);
    antes := onde;
    if c.vagasMin.Some? {
      onde := onde + [InteiroDesde(Vagas, c.vagasMin.value)];
    }
    Passo(antes, onde, InteiroDesde(Vagas, c.vagasMin.GetOr(0)), c, 10);
  }

  /** `buscar`'s conjuncts for the floor-area bounds. */
  method CondicoesDeArea(onde0: seq<Condicao>, c: CriteriosBusca) returns (onde: seq<Condicao>)
    requires Reflete(onde0, c, 11)
    ensures Reflete(onde, c, 13)
  {
    onde := onde0;
    ghost var antes := onde;
    if c.areaUtilMin.Some? {
      onde := onde + [RealDesde(AreaUtil, c.areaUtilMin.value)];
    }
    Passo(antes, onde, RealDesde(AreaUtil, c.areaUtilMin.GetOr(0.0)), c, 11);
    antes := onde;
    if c.areaUtilMax.Some? {
      onde := onde + [RealAte(AreaUtil, c.areaUtilMax.value)];
    }
    Passo(antes, onde, RealAte(AreaUtil, c.areaUtilMax.GetOr(0.0)), c, 12);
  }

  /** `buscar`'s conjunct for the free-text term. */
  method CondicaoDeTexto(onde0: seq<Condicao>, c: CriteriosBusca) returns (onde: seq<Condicao>)
    requires Reflete(onde0, c, 13)
    ensures Reflete(onde, c, 14)
  {
    onde := onde0;
    ghost var antes := onde;
    if Preenchido(c.texto) {
      onde := onde + [TextoComo("%" + c.texto.value + "%")];
    }
    Passo(antes, onde, TextoComo("%" + c.texto.GetOr("") + "%"), c, 13);
  }

  // ---------------------------------------------------------------------------------------
  // Counting

  /** How many listings have status `s`: one `COUNT(*)` of the `GROUP BY status`. */
  function ContarStatus(s: seq<Imovel>, st: StatusImovel): (n: nat)
    decreases |s|
    ensures n <= |s|
    ensures n > 0 <==> exists k :: 0 <= k < |s| && s[k].status == st
  {
    if s == [] then 0
    else
      var resto := ContarStatus(s[1..], st);
      assert forall k :: 1 <= k < |s| ==> s[k] == s[1..][k - 1];
      (if s[0].status == st then 1 else 0) + resto
  }

  /** The position of a status in STATUS_IMOVEL. */
  function IndiceStatus(st: StatusImovel): (i: nat)
    ensures i < |StatusImovelTodos| && StatusImovelTodos[i] == st
  {
    match st
    case Disponivel => 0
    case Reservado => 1
    case Vendido => 2
    case Alugado => 3
    case Inativo => 4
  }

  /** `SELECT status, COUNT(*) ... GROUP BY status`: one row per status that occurs. */
  function GruposPorStatus(s: seq<Imovel>): (grupos: seq<(StatusImovel, nat)>)
    ensures forall i :: 0 <= i < |grupos| ==> grupos[i].1 == ContarStatus(s, grupos[i].0) > 0
    ensures forall st :: ContarStatus(s, st) > 0 ==> exists i :: 0 <= i < |grupos| && grupos[i].0 == st
  {
    var todos := seq(|StatusImovelTodos|, i requires 0 <= i < |StatusImovelTodos| =>
      (StatusImovelTodos[i], ContarStatus(s, StatusImovelTodos[i])));
    var r := Filtrar(todos, (g: (StatusImovel, nat)) => g.1 > 0);
    assert forall st :: ContarStatus(s, st) > 0 ==> exists i :: 0 <= i < |r| && r[i].0 == st by {
      forall st | ContarStatus(s, st) > 0 ensures exists i :: 0 <= i < |r| && r[i].0 == st {
        var j := IndiceStatus(st);
        assert todos[j] == (st, ContarStatus(s, st));
        var i :| 0 <= i < |r| && r[i] == todos[j];
      }
    }
    r
  }

  /** The count of each status, with the statuses that do not occur counted as 0. */
  function SomaStatus(s: seq<Imovel>): nat {
    ContarStatus(s, Disponivel) + ContarStatus(s, Reservado) + ContarStatus(s, Vendido)
    + ContarStatus(s, Alugado) + ContarStatus(s, Inativo)
  }

  /** Every listing is counted under exactly one status, so the counts add up to the table size. */
  lemma {:induction false} SomaStatusTotal(s: seq<Imovel>)
    decreases |s|
    ensures SomaStatus(s) == |s|
  {
    if s != [] {
      SomaStatusTotal(s[1..]);
    }
  }

  // ---------------------------------------------------------------------------------------
  // The store

  /** ImoveisStore: the `imoveis` table, keyed by `id`. */
  class ImoveisStore {
    var imoveis: seq<Imovel>

    ghost predicate Valid()
      reads this
    {
      IdsImoveisUnicos(imoveis)
    }

    constructor()
      ensures Valid() && imoveis == []
    {
      imoveis := [];
    }

    /** `criar`: the new listing takes the fresh id and `agora` as both timestamps. */
    method Criar(dados: Imovel, id: string, agora: int) returns (imovel: Imovel)
      requires Valid() && id !in IdsImoveis(imoveis)
      modifies this
      ensures Valid()
      ensures imovel == dados.(id := id, criadoEm := agora, atualizadoEm := agora)
      ensures imoveis == old(imoveis) + [imovel]
    {
      imovel := dados.(id := id, criadoEm := agora, atualizadoEm := agora);
      IdsImoveisAcrescentar(imoveis, imovel);
      imoveis := imoveis + [imovel];
    }

    /** `buscarPorId` */
    function BuscarPorId(id: string): (r: Option<Imovel>)
      reads this
      ensures r.Some? <==> id in IdsImoveis(imoveis)
      ensures r.Some? ==> r.value in imoveis && r.value.id == id
    {
      match IndiceImovel(imoveis, id)
      case Some(i) => Some(imoveis[i])
      case None => None
    }

    /** `listar` */
    function Listar(f: FiltroImoveis): (r: seq<Imovel>)
      reads this
      ensures r == Listagem(imoveis, f)
      ensures forall i :: 0 <= i < |r| ==> r[i] in imoveis && AceitaImovel(f, r[i])
      ensures multiset(r) <= multiset(imoveis)
      ensures forall i, j :: 0 <= i < j < |r| ==> r[i].atualizadoEm >= r[j].atualizadoEm
      ensures 0 <= f.limite.GetOr(50) ==> |r| <= f.limite.GetOr(50)
    {
      Listagem(imoveis, f)
    }

    /**
     * `buscar`: one conjunct per criterion given, in the source's order, then the query with
     * the newest-updated listings first and at most 50 rows. The result is the search the
     * criteria describe.
     */
    method Buscar(c: CriteriosBusca) returns (r: seq<Imovel>)
      ensures r == Busca(imoveis, c)
    {
      var onde: seq<Condicao> := [];
      onde := CondicoesDeCategoria(onde, c);
      onde := CondicoesDeLocal(onde, c);
      onde := CondicoesDePreco(onde, c);
      onde := CondicoesDeComodos(onde, c);
      onde := CondicoesDeArea(onde, c);
      onde := CondicaoDeTexto(onde, c);
      var p := (x: Imovel) => SatisfazTodas(x, onde);
      r := Consulta(imoveis, p, MaisRecente, 50);
      ConsultaMesmoFiltro(imoveis, p, FiltroBusca(c), MaisRecente, 50);
    }

    /**
     * `atualizar`: an unknown id changes nothing and gives `None`; otherwise the listing becomes
     * the merge of the stored listing with the update, and nothing else changes.
     */
    method Atualizar(id: string, dados: ImovelPatch, agora: int) returns (r: Option<Imovel>)
      requires Valid()
      modifies this
      ensures Valid()
      ensures IdsImoveis(imoveis) == old(IdsImoveis(imoveis))
      ensures match old(IndiceImovel(imoveis, id))
        case None => r.None? && imoveis == old(imoveis)
        case Some(i) => r == Some(MesclarImovel(old(imoveis[i]), dados, agora)) && imoveis == old(imoveis)[i := r.value]
    {
      match IndiceImovel(imoveis, id)
      case None =>
        r := None;
      case Some(i) =>
        var atualizado := MesclarImovel(imoveis[i], dados, agora);
        IdsImoveisSubstituir(imoveis, i, atualizado);
        imoveis := imoveis[i := atualizado];
        r := Some(atualizado);
    }

    /**
     * `remover`: true exactly when a listing with that id existed; afterwards no listing has
     * it, the others stay in order, and the table is one row shorter when one was removed.
     */
    method Remover(id: string) returns (removido: bool)
      requires Valid()
      modifies this
      ensures Valid()
      ensures removido <==> id in old(IdsImoveis(imoveis))
      ensures imoveis == SemImovel(old(imoveis), id)
      ensures |imoveis| == if removido then old(|imoveis|) - 1 else old(|imoveis|)
      ensures BuscarPorId(id).None?
    {
      removido := id in IdsImoveis(imoveis);
      SemImovelUnicos(imoveis, id);
      imoveis := SemImovel(imoveis, id);
      assert id !in IdsImoveis(imoveis) by {
        forall k | 0 <= k < |imoveis| ensures IdsImoveis(imoveis)[k] != id {
          assert imoveis[k] in imoveis;
        }
      }
    }

    /**
     * `contarPorStatus`: one entry per status that occurs, holding how many listings have it.
     * Statuses with no listing are absent, as in the `GROUP BY` result.
     */
    method ContarPorStatus() returns (contagem: map<StatusImovel, nat>)
      ensures forall st :: st in contagem <==> ContarStatus(imoveis, st) > 0
      ensures forall st :: st in contagem ==> contagem[st] == ContarStatus(imoveis, st)
    {
      var tabela := imoveis;
      var grupos := GruposPorStatus(tabela);
      contagem := Agrupar(grupos, (st: StatusImovel) => ContarStatus(tabela, st));
    }
  }
}

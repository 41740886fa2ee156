/**
 * The natural-language search of the catalogue: a sentence in Portuguese, such as
 * "apartamento 3 quartos no centro até 500 mil", read into search criteria by substring
 * tests against two keyword tables and by a handful of regular expressions, each written
 * here as a scanner that follows the JavaScript engine's leftmost, backtracking match.
 */
module Busca {
  import opened Wrappers
  import opened Text
  import opened Numbers
  import opened ImoveisSchema

  /** MAPA_TIPOS, in declaration order, which is the order its entries are tried in. */
  const MapaTipos: seq<(string, TipoImovel)> := [
    ("apartamento", Apartamento), ("apto", Apartamento), ("ap", Apartamento),
    ("casa", Casa), ("terreno", Terreno), ("lote", Terreno),
    ("sala", SalaComercial), ("sala comercial", SalaComercial),
    ("loja", Loja), ("ponto comercial", Loja), ("galpão", Galpao), ("galpao", Galpao),
    ("cobertura", Cobertura), ("kitnet", Kitnet), ("kit", Kitnet), ("studio", Kitnet),
    ("chácara", Chacara), ("chacara", Chacara), ("sítio", Chacara), ("fazenda", Fazenda)]

  /** MAPA_NEGOCIO, in declaration order. */
  const MapaNegocio: seq<(string, TipoNegocio)> := [
    ("venda", Venda), ("compra", Venda), ("comprar", Venda), ("vender", Venda),
    ("aluguel", Aluguel), ("alugar", Aluguel), ("locação", Aluguel), ("locacao", Aluguel)]

  /**
   * The names every plain JavaScript object inherits from `Object.prototype`: indexing one of
   * the two tables with such a name yields a function, which is truthy.
   */
  const PropriedadesHerdadas: seq<string> := [
    "constructor", "__proto__", "__defineGetter__", "__defineSetter__", "__lookupGetter__",
    "__lookupSetter__", "hasOwnProperty", "isPrototypeOf", "propertyIsEnumerable",
    "toLocaleString", "toString", "valueOf"]

  /** `texto.toLowerCase().trim()`, the text every pattern is matched against. */
  function Minusculas(texto: string): string {
    Trim(Lower(texto))
  }

  /* ---------- The two keyword tables ---------- */

  /** The index of the first entry at or after `i` whose key occurs in `s`, or `|mapa|`. */
  function PrimeiroIndice<T>(s: string, mapa: seq<(string, T)>, i: nat): (k: nat)
    requires i <= |mapa|
    decreases |mapa| - i
    ensures i <= k <= |mapa|
    ensures forall j :: i <= j < k ==> !Contains(s, mapa[j].0)
    ensures k < |mapa| ==> Contains(s, mapa[k].0)
  {
    if i == |mapa| || Contains(s, mapa[i].0) then i else PrimeiroIndice(s, mapa, i + 1)
  }

  /** The value of the first entry, in order, whose key is a substring of `s`. */
  function PrimeiroTermo<T>(s: string, mapa: seq<(string, T)>): Option<T> {
    var k := PrimeiroIndice(s, mapa, 0);
    if k < |mapa| then Some(mapa[k].1) else None
  }

  /* ---------- `(\d+)\s*PALAVRA` ---------- */

  /** One of the words `ws` occurs at `p`. */
  predicate AlgumaEm(s: string, p: nat, ws: seq<string>) {
    exists w :: w in ws && StartsAt(s, p, w)
  }

  /**
   * A match of `(\d+)\s*PALAVRA` at `p`, read by `parseInt`. Only the whole run of digits can
   * be followed by the word: a shorter run is followed by a digit, and no word begins with one.
   */
  function NumeroAntesEm(s: string, ws: seq<string>, p: nat): Option<int> {
    if p < |s| && IsDigit(s[p]) then
      var e := DigitRunEnd(s, p);
      if AlgumaEm(s, SpaceRunEnd(s, e), ws) then Some(DigitsValue(s[p..e])) else None
    else None
  }

  /** What `s.match(re)` captures, for a pattern whose match at each index `m` says. */
  function Primeiro<T>(s: string, m: (string, nat) -> Option<T>): Option<T> {
    match FindFirst(s, 0, m)
    case Some((_, v)) => Some(v)
    case None => None
  }

  const PalavrasQuarto: seq<string> := ["quarto"]
  const PalavrasSuite: seq<string> := ["suite", "suíte"]
  const PalavrasVaga: seq<string> := ["vaga"]
  const PalavrasArea: seq<string> := ["m²", "m2"]

  /** `(\d+)\s*quarto`. */
  function QuartosEm(s: string, p: nat): Option<int> {
    NumeroAntesEm(s, PalavrasQuarto, p)
  }

  /** `(\d+)\s*su[ií]te`. */
  function SuitesEm(s: string, p: nat): Option<int> {
    NumeroAntesEm(s, PalavrasSuite, p)
  }

  /** `(\d+)\s*vaga`. */
  function VagasEm(s: string, p: nat): Option<int> {
    NumeroAntesEm(s, PalavrasVaga, p)
  }

  /** `(\d+)\s*m[²2]`. */
  function AreaEm(s: string, p: nat): Option<int> {
    NumeroAntesEm(s, PalavrasArea, p)
  }

  /* ---------- `(?:CHAVES)\s*([\d.,]+)\s*(mil|k|milh[aãoõ]+|mi)?` ---------- */

  /**
   * An alternation of literal keywords at `p` followed by the rest of a pattern: the keywords
   * are tried in order, and the first one after which `resto` matches gives the match.
   */
  function AposChave<T>(s: string, p: nat, chaves: seq<string>, resto: (string, nat) -> Option<T>): (r: Option<T>)
    decreases |chaves|
    ensures r.Some? ==> exists k :: 0 <= k < |chaves| && CasaChave(s, p, chaves[k], resto) && r == resto(s, p + |chaves[k]|)
                          && forall j :: 0 <= j < k ==> !CasaChave(s, p, chaves[j], resto)
    ensures r.None? ==> forall k :: 0 <= k < |chaves| ==> !CasaChave(s, p, chaves[k], resto)
  {
    if chaves == [] then None
    else if CasaChave(s, p, chaves[0], resto) then resto(s, p + |chaves[0]|)
    else
      var r := AposChave(s, p, chaves[1..], resto);
      assert forall k :: 1 <= k < |chaves| ==> chaves[k] == chaves[1..][k - 1];
      r
  }

  /** The keyword `chave` is at `p` and the rest of the pattern matches after it. */
  predicate CasaChave<T>(s: string, p: nat, chave: string, resto: (string, nat) -> Option<T>) {
    StartsAt(s, p, chave) && resto(s, p + |chave|).Some?
  }

  /**
   * `(mil|k|milh[aãoõ]+|mi)` at `q`, alternatives in order. "mil" is tried before
   * "milh[aãoõ]+", so it wins on every word that starts with "milh": the unit is never one
   * of the millions words.
   */
  function UnidadeEm(s: string, q: nat): (r: Option<string>)
    requires q <= |s|
    ensures r.Some? ==> StartsAt(s, q, r.value)
    ensures StartsAt(s, q, "k") || StartsAt(s, q, "mi") ==> r.Some?
  {
    if StartsAt(s, q, "mil") then Some("mil")
    else if StartsAt(s, q, "k") then Some("k")
    else if StartsAt(s, q, "milh") && q + 4 < |s| && VogalMilhao(s[q + 4]) then
      Some(s[q..RunEnd(s, q + 4, VogalMilhao)])
    else if StartsAt(s, q, "mi") then Some("mi")
    else None
  }

  /** A word starting with "milh" is read as the unit "mil". */
  lemma MilhoesLidoComoMil(s: string, q: nat)
    requires q <= |s| && StartsAt(s, q, "milh")
    ensures UnidadeEm(s, q) == Some("mil")
  {
    assert s[q..q + 3] == s[q..q + 4][..3];
  }

  /** The unit is only ever "mil", "k" or "mi": the millions words are never captured. */
  lemma UnidadeNuncaMilhoes(s: string, q: nat)
    requires q <= |s|
    ensures UnidadeEm(s, q).Some? ==> UnidadeEm(s, q).value in ["mil", "k", "mi"]
  {
    if StartsAt(s, q, "milh") {
      MilhoesLidoComoMil(s, q);
    }
  }

  /**
   * `\s*([\d.,]+)\s*(UNIDADE)?` from `j`: the longest run of digits, dots and commas after the
   * spaces, and the unit after the spaces that follow it, if there is one. The optional unit
   * can always match empty, so the greedy run is never given back.
   */
  function ValorApos(s: string, j: nat): Option<(string, Option<string>)> {
    if j > |s| then None
    else
      var i := SpaceRunEnd(s, j);
      var e := RunEnd(s, i, CaractereNumerico);
      if e == i then None else Some((s[i..e], UnidadeEm(s, SpaceRunEnd(s, e))))
  }

  /** `(?:até|ate|no máximo|no maximo|max)`. */
  const ChavesMax: seq<string> := ["até", "ate", "no máximo", "no maximo", "max"]

  /** `(?:acima de|a partir de|min(?:imo)?)`: the greedy `(?:imo)?` tries "minimo" first. */
  const ChavesMin: seq<string> := ["acima de", "a partir de", "minimo", "min"]

  /**
   * `parseValorPreco`, in centavos: dots dropped and the first comma read as the decimal point;
   * NaN is 0; "mil" or "k" is thousands of reais; a unit starting with "milh", or "mi", is
   * millions; a bare number above 1000 is reais, and one up to 1000 is thousands of reais.
   */
  function ParseValorPreco(valor: string, unidade: Option<string>): (r: real)
    ensures SemDigitos(valor) ==> r == 0.0
  {
    CadeiaValor(valor);
    match ParseFloat(ReplaceFirst(SemPontos(valor), ',', '.'))
    case None => 0.0
    case Some(num) =>
      var u := Lower(unidade.GetOr(""));
      if u == "mil" || u == "k" then num * 100000.0
      else if StartsWith(u, "milh") || u == "mi" then num * 100000000.0
      else if num > 1000.0 then num * 100.0
      else num * 100000.0
  }

  /** `(?:até|ate|no máximo|no maximo|max)\s*([\d.,]+)\s*(mil|k|milh[aãoõ]+|mi)?`. */
  function PrecoMaxEm(s: string, p: nat): Option<(string, Option<string>)> {
    AposChave(s, p, ChavesMax, ValorApos)
  }

  /** `(?:acima de|a partir de|min(?:imo)?)\s*([\d.,]+)\s*(mil|k|milh[aãoõ]+|mi)?`. */
  function PrecoMinEm(s: string, p: nat): Option<(string, Option<string>)> {
    AposChave(s, p, ChavesMin, ValorApos)
  }

  /** The price the first match of `m` gives, or absent. */
  function PrecoDe(s: string, m: (string, nat) -> Option<(string, Option<string>)>): Option<real> {
    match Primeiro(s, m)
    case Some(g) => Some(ParseValorPreco(g.0, g.1))
    case None => None
  }

  /* ---------- `(?:em|no|na|nos|nas)\s+([…\s]+?)(?:\s+(?:até|…|\d)|$)` ---------- */

  /** `[a-záàâãéèêíïóôõúüçñ\s]`. */
  predicate ClasseLocal(c: char) {
    ('a' <= c <= 'z') || LetraAcentuada(c) || IsSpace(c)
  }

  /** `[áàâãéèêíïóôõúüçñ]`. */
  predicate LetraAcentuada(c: char) {
    c == 'á' || c == 'à' || c == 'â' || c == 'ã' || c == 'é' || c == 'è' || c == 'ê' || c == 'í'
    || c == 'ï' || c == 'ó' || c == 'ô' || c == 'õ' || c == 'ú' || c == 'ü' || c == 'ç' || c == 'ñ'
  }

  const ChavesLocal: seq<string> := ["em", "no", "na", "nos", "nas"]

  const TerminosLocal: seq<string> := ["até", "ate", "para", "com", "acima", "de", "a partir"]

  /** `(?:\s+(?:até|ate|para|com|acima|de|a partir|\d)|$)` at `k`. */
  predicate Terminador(s: string, k: nat)
    requires k <= |s|
  {
    k == |s|
    || var t := SpaceRunEnd(s, k);
       t > k && (AlgumaEm(s, t, TerminosLocal) || (t < |s| && IsDigit(s[t])))
  }

  /**
   * The lazy group `[…]+?` started at `b`, grown one character at a time from `k`: the first
   * end after which the terminator matches.
   */
  function FimPreguicoso(s: string, b: nat, k: nat): (f: Option<nat>)
    requires b < k <= |s|
    decreases |s| - k
    ensures f.Some? ==> k <= f.value <= |s| && Terminador(s, f.value)
    ensures f.Some? ==> forall t :: k <= t < f.value ==> !Terminador(s, t)
  {
    if !ClasseLocal(s[k - 1]) then None
    else if Terminador(s, k) then Some(k)
    else FimPreguicoso(s, b, k + 1)
  }

  /** The group when `\s+` has stopped at `b`. */
  function GrupoEm(s: string, b: nat): Option<string>
    requires b <= |s|
  {
    if b == |s| then None
    else match FimPreguicoso(s, b, b + 1)
      case Some(f) => Some(s[b..f])
      case None => None
  }

  /** `\s+` from `j`, greedy: it stops at `b` first, then gives back one space at a time. */
  function GrupoDesde(s: string, j: nat, b: nat): Option<string>
    requires j < b <= |s|
    decreases b
  {
    match GrupoEm(s, b)
    case Some(g) => Some(g)
    case None => if b == j + 1 then None else GrupoDesde(s, j, b - 1)
  }

  /** `\s+(GRUPO)TERMINADOR` from `j`. */
  function GrupoApos(s: string, j: nat): Option<string> {
    if j > |s| then None
    else
      var b := SpaceRunEnd(s, j);
      if b == j then None else GrupoDesde(s, j, b)
  }

  /** `(?:em|no|na|nos|nas)\s+([a-záàâãéèêíïóôõúüçñ\s]+?)(?:\s+(?:até|ate|para|com|acima|de|a partir|\d)|$)`. */
  function LocalEm(s: string, p: nat): Option<string> {
    AposChave(s, p, ChavesLocal, GrupoApos)
  }

  /** The place phrase after the first "em", "no", "na", "nos" or "nas" that has one, trimmed. */
  function LocalDe(s: string): Option<string> {
    match Primeiro(s, LocalEm)
    case Some(g) => Some(Trim(g))
    case None => None
  }

  /** `MAPA[chave]` is truthy: an own key of the table, or a name inherited from `Object`. */
  predicate ChaveVerdadeira<T>(mapa: seq<(string, T)>, chave: string) {
    (exists k :: 0 <= k < |mapa| && mapa[k].0 == chave) || chave in PropriedadesHerdadas
  }

  /**
   * The neighbourhood a captured place becomes: a phrase longer than two characters that is
   * no key of either table and not "centro", "venda" or "aluguel"; or "centro" itself.
   */
  function BairroDe(local: string): (b: Option<string>)
    ensures b.Some? ==> b.value == local && |local| > 2
    ensures b.Some? && local != "centro" ==> !ChaveVerdadeira(MapaTipos, local) && !ChaveVerdadeira(MapaNegocio, local)
    ensures b.Some? && local != "centro" ==> local != "venda" && local != "aluguel"
    ensures local == "centro" ==> b == Some("centro")
  {
    if |local| > 2 && !ChaveVerdadeira(MapaTipos, local) && !ChaveVerdadeira(MapaNegocio, local)
      && local !in ["centro", "venda", "aluguel"]
    then Some(local)
    else if local == "centro" then Some("centro")
    else None
  }

  /* ---------- interpretarBusca ---------- */

  /** `[tipo]` for a found type. */
  function UmTipo(t: Option<TipoImovel>): Option<seq<TipoImovel>> {
    match t
    case Some(v) => Some([v])
    case None => None
  }

  /**
   * `for (const [termo, valor] of Object.entries(MAPA)) if (lower.includes(termo)) { …; break; }`:
   * the entries are tried in order and the scan stops at the first key that occurs.
   */
  method PrimeiroDaTabela<T>(s: string, mapa: seq<(string, T)>) returns (r: Option<T>)
    ensures r == PrimeiroTermo(s, mapa)
  {
    var i := 0;
    while i < |mapa|
      invariant i <= |mapa|
      invariant PrimeiroIndice(s, mapa, 0) == PrimeiroIndice(s, mapa, i)
    {
      if Contains(s, mapa[i].0) {
        return Some(mapa[i].1);
      }
      i := i + 1;
    }
    return None;
  }

  /** A conditional assignment: a match overwrites the field, no match leaves it as it was. */
  function Ou<T>(novo: Option<T>, antigo: Option<T>): Option<T> {
    if novo.Some? then novo else antigo
  }

  /** "Detectar tipo de imóvel": the first type key found is appended to `tipo`. */
  method DetectarTipo(lower: string, c0: CriteriosBusca) returns (c: CriteriosBusca)
    ensures c == c0.(tipo := match PrimeiroTermo(lower, MapaTipos)
                             case Some(t) => Some(c0.tipo.GetOr([]) + [t])
                             case None => c0.tipo)
    ensures c0.tipo.None? ==> c.tipo == UmTipo(PrimeiroTermo(lower, MapaTipos))
  {
    c := c0;
    var tipo := PrimeiroDaTabela(lower, MapaTipos);
    if tipo.Some? {
      assert c0.tipo.None? ==> c.tipo.GetOr([]) + [tipo.value] == [tipo.value];
      c := c.(tipo := Some(c.tipo.GetOr([]) + [tipo.value]));
    }
  }

  /** "Detectar tipo de negócio". */
  method DetectarNegocio(lower: string, c0: CriteriosBusca) returns (c: CriteriosBusca)
    ensures c == c0.(negocio := Ou(PrimeiroTermo(lower, MapaNegocio), c0.negocio))
  {
    c := c0;
    var negocio := PrimeiroDaTabela(lower, MapaNegocio);
    if negocio.Some? {
      c := c.(negocio := Some(negocio.value));
    }
  }

  /** "Detectar número de quartos", "de suítes" and "vagas". */
  method DetectarContagens(lower: string, c0: CriteriosBusca) returns (c: CriteriosBusca)
    ensures c == c0.(quartosMin := Ou(Primeiro(lower, QuartosEm), c0.quartosMin),
                     suitesMin := Ou(Primeiro(lower, SuitesEm), c0.suitesMin),
                     vagasMin := Ou(Primeiro(lower, VagasEm), c0.vagasMin))
  {
    c := c0;
    var quartos := Primeiro(lower, QuartosEm);
    if quartos.Some? {
      c := c.(quartosMin := Some(quartos.value));
    }
    var suites := Primeiro(lower, SuitesEm);
    if suites.Some? {
      c := c.(suitesMin := Some(suites.value));
    }
    var vagas := Primeiro(lower, VagasEm);
    if vagas.Some? {
      c := c.(vagasMin := Some(vagas.value));
    }
  }

  /** "Detectar faixa de preço". */
  method DetectarPreco(lower: string, c0: CriteriosBusca) returns (c: CriteriosBusca)
    ensures c == c0.(precoMax := Ou(PrecoDe(lower, PrecoMaxEm), c0.precoMax),
                     precoMin := Ou(PrecoDe(lower, PrecoMinEm), c0.precoMin))
  {
    c := c0;
    var precoMax := Primeiro(lower, PrecoMaxEm);
    if precoMax.Some? {
      c := c.(precoMax := Some(ParseValorPreco(precoMax.value.0, precoMax.value.1)));
    }
    var precoMin := Primeiro(lower, PrecoMinEm);
    if precoMin.Some? {
      c := c.(precoMin := Some(ParseValorPreco(precoMin.value.0, precoMin.value.1)));
    }
  }

  /**
   * "Detectar área": a minimum when the text says "acima" or "partir", else a maximum when it
   * says "até" or "ate", else a minimum.
   */
  method DetectarArea(lower: string, c0: CriteriosBusca) returns (c: CriteriosBusca)
    ensures var area := Primeiro(lower, AreaEm);
      var comoMaximo := !(Contains(lower, "acima") || Contains(lower, "partir"))
        && (Contains(lower, "até") || Contains(lower, "ate"));
      && (area.None? ==> c == c0)
      && (area.Some? && !comoMaximo ==> c == c0.(areaUtilMin := Some(area.value as real)))
      && (area.Some? && comoMaximo ==> c == c0.(areaUtilMax := Some(area.value as real)))
  {
    c := c0;
    var area := Primeiro(lower, AreaEm);
    if area.Some? {
      if Contains(lower, "acima") || Contains(lower, "partir") {
        c := c.(areaUtilMin := Some(area.value as real));
      } else if Contains(lower, "até") || Contains(lower, "ate") {
        c := c.(areaUtilMax := Some(area.value as real));
      } else {
        c := c.(areaUtilMin := Some(area.value as real));
      }
    }
  }

  /** "Detectar bairro/localização". */
  method DetectarBairro(lower: string, c0: CriteriosBusca) returns (c: CriteriosBusca)
    ensures c == c0.(bairro := match LocalDe(lower) case Some(l) => Ou(BairroDe(l), c0.bairro) case None => c0.bairro)
    ensures c.bairro != c0.bairro ==> c.bairro.Some? && |c.bairro.value| > 2
  {
    c := c0;
    var local := LocalDe(lower);
    if local.Some? {
      var l := local.value;
      if |l| > 2 && !ChaveVerdadeira(MapaTipos, l) && !ChaveVerdadeira(MapaNegocio, l)
        && l !in ["centro", "venda", "aluguel"]
      {
        c := c.(bairro := Some(l));
      } else if l == "centro" {
        c := c.(bairro := Some("centro"));
      }
    }
  }

  /**
   * `interpretarBusca`: the criteria are filled in one after the other on the lowercased,
   * trimmed text; the original text becomes the free-text criterion when none of type,
   * business, rooms, maximum price and neighbourhood was found.
   */
  method InterpretarBusca(texto: string) returns (c: CriteriosBusca)
    ensures var s := Minusculas(texto);
      && c.tipo == UmTipo(PrimeiroTermo(s, MapaTipos))
      && c.negocio == PrimeiroTermo(s, MapaNegocio)
      && c.quartosMin == Primeiro(s, QuartosEm)
      && c.suitesMin == Primeiro(s, SuitesEm)
      && c.vagasMin == Primeiro(s, VagasEm)
      && c.precoMax == PrecoDe(s, PrecoMaxEm)
      && c.precoMin == PrecoDe(s, PrecoMinEm)
      && c.bairro == (match LocalDe(s) case Some(l) => BairroDe(l) case None => None)
    ensures var s := Minusculas(texto);
      var area := Primeiro(s, AreaEm);
      var comoMaximo := !(Contains(s, "acima") || Contains(s, "partir")) && (Contains(s, "até") || Contains(s, "ate"));
      && (area.None? ==> c.areaUtilMin.None? && c.areaUtilMax.None?)
      && (area.Some? && !comoMaximo ==> c.areaUtilMin == Some(area.value as real) && c.areaUtilMax.None?)
      && (area.Some? && comoMaximo ==> c.areaUtilMax == Some(area.value as real) && c.areaUtilMin.None?)
    ensures c.texto == (if c.tipo.None? && c.negocio.None? && c.quartosMin.None? && c.precoMax.None? && c.bairro.None?
                        then Some(texto) else None)
    ensures c.status.None? && c.cidade.None? && c.estado.None? && c.quartosMax.None?
      && c.banheirosMin.None? && c.amenidades.None?
  {
    var lower := Minusculas(texto);
    c := SemCriterios;
    c := DetectarTipo(lower, c);
    c := DetectarNegocio(lower, c);
    c := DetectarContagens(lower, c);
    c := DetectarPreco(lower, c);
    c := DetectarArea(lower, c);
    c := DetectarBairro(lower, c);
    if c.tipo.None? && c.negocio.None? && c.quartosMin.None? && c.precoMax.None? && !Preenchido(c.bairro) {
      c := c.(texto := Some(texto));
    }
  }

  /* ---------- Properties ---------- */

  /** Entry `k` of a table is where the scan stops when its key occurs and no earlier one does. */
  lemma {:induction false} PrimeiroIndiceEm<T>(s: string, mapa: seq<(string, T)>, i: nat, k: nat)
    requires i <= k < |mapa| && Contains(s, mapa[k].0)
    requires forall j :: i <= j < k ==> !Contains(s, mapa[j].0)
    decreases k - i
    ensures PrimeiroIndice(s, mapa, i) == k
  {
    if i < k {
      PrimeiroIndiceEm(s, mapa, i + 1, k);
    }
  }

  /**
   * "ap" is the third key and every key before it also contains "ap": any text containing
   * "ap" (such as "casa com mapa") is read as an apartment, whatever else it names.
   */
  lemma ApVenceTudo(s: string)
    requires Contains(s, "ap")
    ensures PrimeiroTermo(s, MapaTipos) == Some(Apartamento)
  {
    assert MapaTipos[2].0 == "ap";
    var k := PrimeiroIndice(s, MapaTipos, 0);
    assert k <= 2;
    assert MapaTipos[0].1 == Apartamento && MapaTipos[1].1 == Apartamento && MapaTipos[2].1 == Apartamento;
  }

  /** A text containing a key that contains `w` contains `w`. */
  lemma ContemPorDentro(s: string, chave: string, w: string, i: nat)
    requires StartsAt(chave, i, w)
    ensures Contains(s, chave) ==> Contains(s, w)
  {
    if Contains(s, chave) {
      ContainsTrans(s, chave, w);
    }
  }

  /** "casa" is the only key of a house. */
  lemma SoCasaEhCasa(j: nat)
    requires j < |MapaTipos| && MapaTipos[j].1 == Casa
    ensures j == 3 && MapaTipos[j].0 == "casa"
  {
  }

  /** The type is a house exactly when "casa" occurs and "ap" does not. */
  lemma TipoCasa(s: string)
    ensures PrimeiroTermo(s, MapaTipos) == Some(Casa) <==> Contains(s, "casa") && !Contains(s, "ap")
  {
    if Contains(s, "casa") && !Contains(s, "ap") {
      assert MapaTipos[0].0 == "apartamento" && MapaTipos[1].0 == "apto" && MapaTipos[2].0 == "ap";
      assert MapaTipos[3] == ("casa", Casa);
      ContemPorDentro(s, "apartamento", "ap", 0);
      ContemPorDentro(s, "apto", "ap", 0);
      PrimeiroIndiceEm(s, MapaTipos, 0, 3);
    }
    if PrimeiroTermo(s, MapaTipos) == Some(Casa) {
      SoCasaEhCasa(PrimeiroIndice(s, MapaTipos, 0));
      if Contains(s, "ap") {
        ApVenceTudo(s);
      }
    }
  }

  /** One of the sale words occurs in `s`. */
  predicate FalaDeVenda(s: string) {
    Contains(s, "venda") || Contains(s, "compra") || Contains(s, "comprar") || Contains(s, "vender")
  }

  /** One of the rental words occurs in `s`. */
  predicate FalaDeAluguel(s: string) {
    Contains(s, "aluguel") || Contains(s, "alugar") || Contains(s, "locação") || Contains(s, "locacao")
  }

  /**
   * The business is a sale exactly when a sale word occurs, and a rental exactly when a rental
   * word occurs and no sale word does: the sale words come first in the table.
   */
  lemma NegocioPorPalavras(s: string)
    ensures PrimeiroTermo(s, MapaNegocio) == Some(Venda) <==> FalaDeVenda(s)
    ensures PrimeiroTermo(s, MapaNegocio) == Some(Aluguel) <==> !FalaDeVenda(s) && FalaDeAluguel(s)
    ensures PrimeiroTermo(s, MapaNegocio) != Some(VendaAluguel)
  {
    var k := PrimeiroIndice(s, MapaNegocio, 0);
    assert MapaNegocio[0] == ("venda", Venda) && MapaNegocio[1] == ("compra", Venda);
    assert MapaNegocio[2] == ("comprar", Venda) && MapaNegocio[3] == ("vender", Venda);
    assert MapaNegocio[4] == ("aluguel", Aluguel) && MapaNegocio[5] == ("alugar", Aluguel);
    assert MapaNegocio[6] == ("locação", Aluguel) && MapaNegocio[7] == ("locacao", Aluguel);
    if FalaDeVenda(s) {
      assert k < 4;
    } else if FalaDeAluguel(s) {
      assert 4 <= k < 8;
    } else {
      assert k == 8;
    }
  }

  /**
   * `(\d+)\s*PALAVRA` on `a + d + " " + w + r`, with no digit in `a` and `w` one of the words,
   * reads the digits `d`: no match can start inside `a`.
   */
  lemma NumeroAntesDaPalavra(a: string, d: string, w: string, r: string, ws: seq<string>, m: (string, nat) -> Option<int>)
    requires forall t, p :: m(t, p) == NumeroAntesEm(t, ws, p)
    requires SemDigitos(a) && d != [] && AllDigits(d)
    requires w in ws && w != [] && !IsSpace(w[0])
    ensures Primeiro(a + d + " " + w + r, m) == Some(DigitsValue(d) as int)
  {
    var s := a + d + " " + w + r;
    var e := |a| + |d|;
    forall k | |a| <= k < e
      ensures IsDigit(s[k])
    {
      assert s[k] == d[k - |a|];
    }
    assert s[e] == ' ' && s[e + 1] == w[0];
    RunEndIs(s, |a|, e, IsDigit);
    RunEndIs(s, e, e + 1, IsSpace);
    assert s[e + 1..e + 1 + |w|] == w;
    assert s[|a|..e] == d;
    assert AlgumaEm(s, e + 1, ws);
    forall j | 0 <= j < |a|
      ensures m(s, j).None?
    {
      assert s[j] == a[j];
    }
    FindFirstEm(s, 0, |a|, m);
  }

  /** "casa com 3 quartos" asks for at least 3 rooms, and likewise after any text without digits. */
  lemma QuartosAntesDaPalavra(a: string, d: string, r: string)
    requires SemDigitos(a) && d != [] && AllDigits(d)
    ensures Primeiro(a + d + " " + "quarto" + r, QuartosEm) == Some(DigitsValue(d) as int)
  {
    NumeroAntesDaPalavra(a, d, "quarto", r, PalavrasQuarto, QuartosEm);
  }

  /** A run of digits, with no dot and no comma, reads as its own value. */
  lemma LeituraDeDigitos(d: string)
    requires d != [] && AllDigits(d)
    ensures ParseFloat(ReplaceFirst(SemPontos(d), ',', '.')) == Some(DigitsValue(d) as real)
  {
    KeepCharsTudo(d, NaoPonto);
    ReplaceFirstAusente(d, ',', '.');
    assert d + [] == d;
    ParseFloatDigits(d, []);
  }

  /**
   * The text `parseValorPreco` hands to `parseFloat` keeps the character classes of `valor`:
   * none of its characters is a digit when none of `valor`'s is, and none is a minus sign when
   * `valor` is made of digits, dots and commas.
   */
  lemma CadeiaValor(valor: string)
    ensures SemDigitos(valor) ==> SemDigitos(ReplaceFirst(SemPontos(valor), ',', '.'))
    ensures TextoNumerico(valor) ==>
      forall k :: 0 <= k < |ReplaceFirst(SemPontos(valor), ',', '.')| ==>
        ReplaceFirst(SemPontos(valor), ',', '.')[k] != '-'
  {
    if SemDigitos(valor) {
      KeepCharsSemDigitos(valor, NaoPonto);
      ReplaceFirstSemDigitos(SemPontos(valor), ',', '.');
    }
    if TextoNumerico(valor) {
      KeepCharsClasse(valor, NaoPonto, CaractereNumerico);
      ReplaceFirstClasse(SemPontos(valor), ',', '.', CaractereNumerico);
    }
  }

  /** A captured price, made of digits, dots and commas, never reads as a negative amount. */
  lemma ValorNaoNegativo(valor: string, unidade: Option<string>)
    requires TextoNumerico(valor)
    ensures ParseValorPreco(valor, unidade) >= 0.0
  {
    CadeiaValor(valor);
    ParseFloatSemSinal(ReplaceFirst(SemPontos(valor), ',', '.'));
  }

  /**
   * A bare number of reais is converted to centavos when it exceeds 1000, and is taken as
   * thousands of reais otherwise.
   */
  lemma ValorSemUnidade(d: string)
    requires d != [] && AllDigits(d)
    ensures DigitsValue(d) > 1000 ==> ParseValorPreco(d, None) == DigitsValue(d) as real * 100.0
    ensures DigitsValue(d) <= 1000 ==> ParseValorPreco(d, None) == DigitsValue(d) as real * 100000.0
  {
    LeituraDeDigitos(d);
    ValorSemUnidadeDe(d, DigitsValue(d) as real);
  }

  /** Without a unit, a number above 1000 is reais and one up to 1000 is thousands of reais. */
  lemma ValorSemUnidadeDe(valor: string, num: real)
    requires ParseFloat(ReplaceFirst(SemPontos(valor), ',', '.')) == Some(num)
    ensures ParseValorPreco(valor, None) == if num > 1000.0 then num * 100.0 else num * 100000.0
  {
    assert Lower("") == "" && !StartsWith("", "milh");
  }

  /** Digits followed by "mil" or "k" are thousands of reais. */
  lemma ValorEmMil(d: string)
    requires d != [] && AllDigits(d)
    ensures ParseValorPreco(d, Some("mil")) == DigitsValue(d) as real * 100000.0
    ensures ParseValorPreco(d, Some("k")) == DigitsValue(d) as real * 100000.0
  {
    LeituraDeDigitos(d);
    UnidadesMinusculas();
    ValorMilDe(d, "mil", DigitsValue(d) as real);
    ValorMilDe(d, "k", DigitsValue(d) as real);
  }

  /** The unit words are already in lower case. */
  lemma UnidadesMinusculas()
    ensures Lower("mil") == "mil" && Lower("k") == "k"
    ensures Lower("mi") == "mi" && Lower("milhão") == "milhão"
  {
    LowerFixo("mil");
    LowerFixo("k");
    LowerFixo("mi");
    LowerFixo("milhão");
  }

  /** With the unit "mil" or "k", in any capitalisation, a parsed number is thousands of reais. */
  lemma ValorMilDe(valor: string, unidade: string, num: real)
    requires ParseFloat(ReplaceFirst(SemPontos(valor), ',', '.')) == Some(num)
    requires Lower(unidade) == "mil" || Lower(unidade) == "k"
    ensures ParseValorPreco(valor, Some(unidade)) == num * 100000.0
  {
  }

  /**
   * With a unit that lowercases to "mi" or to a word starting with "milh", a parsed number is
   * millions of reais.
   */
  lemma ValorMilhoesDe(valor: string, unidade: string, num: real)
    requires ParseFloat(ReplaceFirst(SemPontos(valor), ',', '.')) == Some(num)
    requires StartsWith(Lower(unidade), "milh") || Lower(unidade) == "mi"
    ensures ParseValorPreco(valor, Some(unidade)) == num * 100000000.0
  {
    if StartsWith(Lower(unidade), "milh") {
      assert Lower(unidade)[3] == 'h';
    }
  }

  /**
   * Digits followed by "mi", or by a unit starting with "milh", are millions of reais. The
   * search captures only "mi" this way; "milh…" reaches this branch only from other callers.
   */
  lemma ValorEmMilhoes(d: string)
    requires d != [] && AllDigits(d)
    ensures ParseValorPreco(d, Some("mi")) == DigitsValue(d) as real * 100000000.0
    ensures ParseValorPreco(d, Some("milhão")) == DigitsValue(d) as real * 100000000.0
  {
    LeituraDeDigitos(d);
    UnidadesMinusculas();
    assert StartsWith("milhão", "milh") by { assert "milhão"[0..4] == "milh"; }
    ValorMilhoesDe(d, "mi", DigitsValue(d) as real);
    ValorMilhoesDe(d, "milhão", DigitsValue(d) as real);
  }

  /**
   * "até 500 mil" is a maximum of 50 000 000 centavos. Since the unit alternative tries "mil"
   * first, any word starting with "mil" reads the same way: "até 2 milhões" is a maximum of
   * 2 000 reais, not of 2 million.
   */
  lemma PrecoAteMil(d: string, w: string, r: string)
    requires d != [] && AllDigits(d) && StartsWith(w, "mil")
    ensures PrecoDe("até " + d + " " + w + r, PrecoMaxEm) == Some(DigitsValue(d) as real * 100000.0)
  {
    CapturaAteMil(d, w, r);
    ValorEmMil(d);
    PrecoNoInicio("até " + d + " " + w + r, PrecoMaxEm, (d, Some("mil")), DigitsValue(d) as real * 100000.0);
  }

  /** A price pattern that matches at the very start reads what it captured there. */
  lemma PrecoNoInicio(s: string, m: (string, nat) -> Option<(string, Option<string>)>, g: (string, Option<string>), v: real)
    requires m(s, 0) == Some(g) && ParseValorPreco(g.0, g.1) == v
    ensures PrecoDe(s, m) == Some(v)
  {
    FindFirstEm(s, 0, 0, m);
  }

  /** "até 2 milhões" is read as "até 2 mil": a maximum of 2 000 reais. */
  lemma MilhoesLidosComoMil(d: string, r: string)
    requires d != [] && AllDigits(d)
    ensures PrecoDe("até " + d + " " + "milhões" + r, PrecoMaxEm) == Some(DigitsValue(d) as real * 100000.0)
  {
    assert "milhões"[..3] == "mil";
    PrecoAteMil(d, "milhões", r);
  }

  /** The groups `(?:até|…)\s*([\d.,]+)\s*(mil|…)?` captures on "até", digits and a "mil…" word. */
  lemma CapturaAteMil(d: string, w: string, r: string)
    requires d != [] && AllDigits(d) && StartsWith(w, "mil")
    ensures PrecoMaxEm("até " + d + " " + w + r, 0) == Some((d, Some("mil")))
  {
    var s := "até " + d + " " + w + r;
    var e := 4 + |d|;
    assert s[..3] == "até" && s[3] == ' ' && s[e] == ' ';
    forall k | 4 <= k < e
      ensures IsDigit(s[k])
    {
      assert s[k] == d[k - 4];
    }
    RunEndIs(s, 3, 4, IsSpace);
    RunEndIs(s, 4, e, CaractereNumerico);
    assert s[e + 1] == w[0] == 'm';
    RunEndIs(s, e, e + 1, IsSpace);
    assert s[e + 1..e + 4] == w[..3];
    assert s[4..e] == d;
    assert UnidadeEm(s, e + 1) == Some("mil");
    assert ValorApos(s, 3) == Some((d, Some("mil")));
    assert CasaChave(s, 0, ChavesMax[0], ValorApos);
  }

  /** "constructor" is never a neighbourhood: `MAPA_TIPOS["constructor"]` is truthy. */
  lemma ConstructorNaoEhBairro()
    ensures BairroDe("constructor") == None
  {
    assert PropriedadesHerdadas[0] == "constructor";
  }

  /** The lazy group run over letters to the end of the text stops only at the end. */
  lemma {:induction false} FimPreguicosoNoFim(s: string, b: nat, k: nat)
    requires b < k <= |s|
    requires forall t :: k - 1 <= t < |s| ==> ClasseLocal(s[t]) && !IsSpace(s[t])
    decreases |s| - k
    ensures FimPreguicoso(s, b, k) == Some(|s|)
  {
    assert ClasseLocal(s[k - 1]);
    if k < |s| {
      RunEndIs(s, k, k, IsSpace);
      assert !Terminador(s, k);
      FimPreguicosoNoFim(s, b, k + 1);
      assert FimPreguicoso(s, b, k) == FimPreguicoso(s, b, k + 1);
    } else {
      assert Terminador(s, k);
      assert FimPreguicoso(s, b, k) == Some(k);
    }
  }

  /** "em" and a single word of letters that ends the text: the word is the place. */
  lemma LocalAposEm(w: string)
    requires w != [] && forall k :: 0 <= k < |w| ==> ClasseLocal(w[k]) && !IsSpace(w[k])
    ensures LocalDe("em " + w) == Some(w)
  {
    var s := "em " + w;
    assert s[..2] == "em" && s[2] == ' ' && s[3] == w[0];
    RunEndIs(s, 2, 3, IsSpace);
    forall t | 3 <= t < |s|
      ensures ClasseLocal(s[t]) && !IsSpace(s[t])
    {
      assert s[t] == w[t - 3];
    }
    FimPreguicosoNoFim(s, 3, 4);
    assert s[3..|s|] == w;
    assert GrupoEm(s, 3) == Some(w);
    assert GrupoApos(s, 2) == Some(w);
    assert ChavesLocal[0] == "em";
    assert LocalEm(s, 0) == Some(w);
    FindFirstEm(s, 0, 0, LocalEm);
    TrimFixo(w);
  }
}

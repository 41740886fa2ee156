# corretorai rule engine, in Dafny

This project models the decision core of corretorai, a CRM and property-search assistant for a
Brazilian real-estate agent, and proves properties of that model. It covers the following:

- **Sales pipeline.** The eight lead stages and their adjacency table (`TRANSICOES_PIPELINE`).
  A transition is validated first. Then its side effects are applied: new status, loss reason,
  follow-up cleared or recomputed, and one "nota" interaction.
- **Follow-up policy.** A per-stage day table, the canned reminder per stage, and the nightly
  batch. The batch schedules a follow-up for every open lead that has none.
- **Qualification.** The five questions, which of them are still pending, the next one to ask,
  and the prompt built from them. Also `interpretarPreco`, which reads a Portuguese price phrase
  as centavos.
- **Search.** `interpretarBusca` turns a free-text search into structured criteria.
  - Each regular expression is a hand-written leftmost-match scanner. It tries its alternatives
    in JavaScript's order.
  - `parseValorPreco` is the search's own price reader.
- **Tables.** The lead, interaction and visit tables of `CrmStore` and the listing table of
  `ImoveisStore` are classes over sequences, in insertion order. Their methods are the SQL
  statements the stores run: filters, merges, orderings and limits.
- **Lead capture.** Find-or-create by phone, with exactly one interaction per inbound message.

Modules follow the source files:

| module | source file |
|---|---|
| `CrmSchema`, `VisitaSchema`, `ImoveisSchema` | the record and enum files |
| `Pipeline` | `pipeline.ts` |
| `Followup` | `followup.ts` |
| `Qualificacao` | `qualificacao.ts` |
| `Busca` | `busca.ts` |
| `CrmTables` | the CRM store |
| `ImoveisTables` | the listing store |
| `Capture` | `capture.ts` |

`Text`, `Numbers` and `Sql` hold what the source borrows from JavaScript and SQLite:
- `Text`: `\s`, `toLowerCase`, `trim`, `includes`, `replace` and leftmost matching;
- `Numbers`: `parseFloat`;
- `Sql`: `ORDER BY`, `LIMIT`, `LIKE` and `GROUP BY`.

Timestamps are integers, in milliseconds. The clock reading, fresh UUIDs and the store a call
works on are parameters.

Quirks of the source are modelled as written, and lemmas state them:
- **The two price readers disagree.**
  - A bare number: `interpretarPreco` keeps anything up to 10000 unchanged. `parseValorPreco`
    treats anything up to 1000 as thousands of reais.
  - Unreadable text: one gives `null`, the other 0.
- **Units of millions in `interpretarPreco`.** The millions pattern accepts "milhão" but not
  "milhões". A plural million is read as a bare number.
- **Units of millions in the search.** The unit alternative tries "mil" first, so "até 2
  milhões" is a maximum of 2000 reais. As a result, `parseValorPreco`'s "milh" branch is
  unreachable from the search.
- **Property types.** "ap" is a substring test that comes before "casa". Any text containing
  "ap" is an apartment search.
- **"constructor".** It is a truthy key of every JavaScript object, so it is never taken as a
  neighbourhood.
- **Phone lookup.** Stored phones lose only '-', ' ' and '+', while the number looked up keeps
  only its digits. A phone with any other non-digit after one of its digits, such as
  "(11) 98765-4321", is never found again, so each message from that contact creates a new lead.
  A parenthesis in front of every digit, as in "(11987654321", is harmless.

## Model

| member | source | states |
|---|---|---|
| CrmSchema.StatusLeadTodosOrdem | src/crm/schema.ts:3-12 | `STATUS_LEAD` lists all eight stages exactly once, in pipeline order |
| CrmSchema.Transicoes | src/crm/schema.ts:73-82 | The adjacency table. No stage lists itself. Every open stage, and only an open one, may be lost. Only `negociacao` may be won. Only a lost deal goes back to `novo`, and that is its only move. A won deal has no move. No entry repeats |
| CrmSchema.PropriedadesPipeline | src/crm/schema.ts:73-87 | `transicaoValida` is membership in that table. No self-loops; `fechado_ganho` is a dead end; `fechado_perdido` only reopens to `novo`; every open stage may be lost; only `negociacao` wins; `novo` cannot skip to `qualificado` |
| CrmSchema.PartesResumo | src/crm/schema.ts:90-96 | The parts `resumoLead` joins, each at its place: the name first, then the phone when it is set, then the status in brackets, then the business type when it is set, and last the neighbourhoods joined by ", " when there are any. There are no other parts |
| CrmSchema.ResumoLead | src/crm/schema.ts:90-97 | The summary starts with the name followed by " \| " and contains `[status]`. It contains the phone, the business type and the ", "-joined neighbourhoods whenever each is set |
| CrmSchema.ResumoMinimo | src/crm/schema.ts:90-97 | A lead with no phone and no interest is summarised as exactly "nome \| [status]" |
| Pipeline.FiltrarEstagios | src/crm/pipeline.ts:89-99 | Filtering the full stage list keeps exactly the accepted stages, in `STATUS_LEAD` order |
| Pipeline.TransicoesDisponiveis | src/crm/pipeline.ts:88-100 | Exactly the stages `transicaoValida` allows from `s`, listed in `STATUS_LEAD` order rather than table order |
| Pipeline.SemQualificacao | src/crm/schema.ts:74-75 | A walk along allowed moves that starts before qualification and never visits `qualificado` stays in `novo`, `contato_inicial` or `fechado_perdido` |
| Pipeline.FunilCompleto | src/crm/schema.ts:73-82 | Every walk from `novo` to `fechado_ganho` passes through `qualificado`. It ends with `negociacao` then the win, and has a step from `proposta` to `negociacao` |
| Pipeline.ErroTransicao | src/crm/pipeline.ts:32-37 | The refusal message names both the current and the requested stage |
| Pipeline.DescricaoTransicao | src/crm/pipeline.ts:77 | The note names both stages, and ends with the reason in parentheses when one is given |
| Pipeline.LeadAposTransicao | src/crm/pipeline.ts:47-79 | The lead after a move. The status is the new one, and last contact and update time are the call's one clock reading, which also stamps the event. A lost deal with a reason stores it and clears the follow-up. A lost deal without one keeps both. A won deal clears the follow-up. An open stage gets the follow-up computed at the new stage from the pre-move base, 1-3 days later. Nothing else changes |
| Pipeline.AlteracoesDaTransicao | src/crm/pipeline.ts:48-69 | The `updates` record, filled field by field, is the transition's patch |
| Pipeline.FechadoNuncaVence | src/crm/pipeline.ts:50-63 | After a move to a closed stage the lead is never due for a follow-up |
| Pipeline.ExecutarTransicao | src/crm/pipeline.ts:21-85 | Unknown lead: "Lead não encontrado" and nothing changes. Invalid move: an error naming both stages and nothing changes. Otherwise an event with `de` and `para`, the lead replaced by `LeadAposTransicao`, and exactly one "nota" interaction appended at the event's timestamp |
| Followup.DiasSemResposta | src/crm/followup.ts:10-19 | Zero days exactly for the two closed stages, and at most three days for any stage |
| Followup.CalcularProximoFollowup | src/crm/followup.ts:37-45 | `null` exactly for closed deals. Otherwise a whole number of days, one to three, after `dataUltimoContato ?? criadoEm` |
| Followup.FollowupSoDependeDaBase | src/crm/followup.ts:38-44 | Two leads at the same stage with the same base get the same follow-up |
| Followup.GerarMensagemFollowup | src/crm/followup.ts:50-67 | Every branch, the default included, puts the lead's name between its stage's opening and closing text |
| Followup.MensagemDistingueNomes | src/crm/followup.ts:50-67 | Two leads at the same stage whose names differ (same length) get different messages |
| Followup.GetLeadsPendentesFollowup | src/crm/followup.ts:24-32 | Exactly the leads due for a follow-up, earliest first |
| Followup.ProgramadosOrigem | src/crm/followup.ts:83-91 | Every scheduled detail comes from an open lead of the listing that had no follow-up |
| Followup.ProgramadosCompleto | src/crm/followup.ts:83-91 | Every open lead of the listing without a follow-up gets a detail |
| Followup.ProgramadosIdsUnicos | src/crm/followup.ts:83-91 | No lead is scheduled twice |
| Followup.Programados | src/crm/followup.ts:83-91 | The report has at most one entry per listed lead. Its contents are stated by `ProgramadosOrigem`, `ProgramadosCompleto` and `ProgramadosIdsUnicos` |
| Followup.Elegivel | src/crm/followup.ts:84-88 | A lead that passes the two `continue` tests always gets a follow-up date, so the third test never skips it |
| Followup.Aplicar | src/crm/followup.ts:87-91 | The batch keeps every lead, in place, under its own id. What changes in each is stated by `AgendarLead` and `AgendadoNaoElegivel` |
| Followup.AgendarLead | src/crm/followup.ts:87-91 | One loop step writes the lead's computed follow-up through `atualizarLead` and records the detail |
| Followup.AgendarListagem | src/crm/followup.ts:83-92 | The loop schedules exactly the eligible leads of the listing, in listing order, and the table is the old one with those follow-ups written |
| Followup.AgendarFollowupsAutomaticos | src/crm/followup.ts:73-98 | `agendados` equals the number of details. The details are those of the 200 most recently updated leads. Only those leads change |
| Followup.DetalheGravado | src/crm/followup.ts:90-94 | Each detail's `proximoFollowup` is the value written to that lead |
| Followup.AgendamentoPreserva | src/crm/followup.ts:84-85 | A closed lead, or one that already has a follow-up, is left exactly as it was: the batch never overwrites a schedule |
| Followup.SemDetalheInelegivel | src/crm/followup.ts:84-85 | A lead that is closed or already scheduled gets no detail from the batch |
| Followup.AgendadoNaoElegivel | src/crm/followup.ts:80-92 | With at most 200 leads, every lead is ineligible after one run |
| Followup.AgendamentoIdempotente | src/crm/followup.ts:80-92 | With at most 200 leads, a second run right after the first schedules nothing |
| Qualificacao.PerguntasEmOrdem | src/crm/qualificacao.ts:8-39 | The five questions in table order: negocio, tipo, quartos, bairros, preco |
| Qualificacao.PerguntaDe | src/crm/qualificacao.ts:8-39 | Every id has its question in the table |
| Qualificacao.PendentesDesde | src/crm/qualificacao.ts:55-59 | The pending ids from position `k` on: exactly the unanswered ones, strictly in table order |
| Qualificacao.AnalisarQualificacao | src/crm/qualificacao.ts:51-66 | `interesse` is the lead's interest or `{}`. The pending list is exactly the unanswered slots, in table order. `completa` holds iff nothing is pending. `quartosMin = 0` and `precoMax = 0` count as answered. Empty lists and an empty `negocio` count as pending |
| Qualificacao.SemInteresseTudoPendente | src/crm/qualificacao.ts:52-59 | A lead with no interest has all five questions pending |
| Qualificacao.PendentesTodos | src/crm/qualificacao.ts:55-59 | When every slot is unanswered, the pending list is the whole question table from `k` on |
| Qualificacao.Pendente | src/crm/qualificacao.ts:52-59 | With no interest every question is open. An empty deal type is still open, and a zero room count or a zero price is an answer. The pending list is stated by `PendentesDesde` |
| Qualificacao.PrimeiraPendente | src/crm/qualificacao.ts:76-78 | `find`: the first question in the table whose id is pending, or none when no id is |
| Qualificacao.PrimeiraNaOrdem | src/crm/qualificacao.ts:76-78 | Over the ordered table, `find` returns the question of the first pending id |
| Qualificacao.ProximaPergunta | src/crm/qualificacao.ts:71-79 | `null` exactly when qualification is complete, otherwise the question of the first pending id |
| Qualificacao.PrimeiraEhPrimeiroPendente | src/crm/qualificacao.ts:76-78 | For a lead with something pending, `find` returns the question of the first pending id |
| Qualificacao.GerarPromptQualificacao | src/crm/qualificacao.ts:84-103 | Never empty. A qualified lead's prompt contains the serialised interest |
| Qualificacao.PromptNomeiaPendentes | src/crm/qualificacao.ts:91-102 | An unqualified lead's prompt names the lead, every pending id, the next question, and its options when it has some |
| Qualificacao.PromptQualificado | src/crm/qualificacao.ts:87-89 | The qualified prompt contains the serialised interest and is never empty |
| Qualificacao.PromptPendente | src/crm/qualificacao.ts:94-102 | The joined non-empty lines contain the name, each pending id, the question and its options |
| Qualificacao.NaoVazias | src/crm/qualificacao.ts:101 | `filter(Boolean)` keeps every non-empty line and only those. They stay in their order, each as often as in the input |
| Qualificacao.SemCifraoFixo | src/crm/qualificacao.ts:110 | Removing `r$\s*` leaves text without '$' as it is |
| Qualificacao.BrutoEmReais | src/crm/qualificacao.ts:110 | "R$ " followed by lower-case text is read as that text |
| Qualificacao.BrutoFixo | src/crm/qualificacao.ts:110 | Lower-case text without '$' and without surrounding spaces is its own `raw` |
| Qualificacao.Captura | src/crm/qualificacao.ts:113 | A match of `^([\d.,]+)\s*UNIT$` captures a non-empty prefix of digits, dots and commas |
| Qualificacao.CapturaDe | src/crm/qualificacao.ts:113 | The pattern captures the leading numeric run exactly when what follows the spaces is a unit word |
| Qualificacao.InterpretarMil | src/crm/qualificacao.ts:113-117 | When the thousands pattern matches, its reading is the result |
| Qualificacao.InterpretarMilhao | src/crm/qualificacao.ts:120-124 | When only the millions pattern matches, its reading is the result |
| Qualificacao.InterpretarDireto | src/crm/qualificacao.ts:126-134 | When neither unit pattern matches, the bare-number reading is the result |
| Qualificacao.PrecoEmMil | src/crm/qualificacao.ts:113-117 | Digits followed by "mil" or "k", with or without a space, are that many thousand reais in centavos |
| Qualificacao.PrecoEmMilhoes | src/crm/qualificacao.ts:120-124 | A number followed by " milhão" is that many million reais in centavos, with the dot kept as the decimal point |
| Qualificacao.MilhComVogais | src/crm/qualificacao.ts:120 | "milh" followed by vowels from `[aãoõ]` is a unit of millions |
| Qualificacao.PrecoMilhoesPlural | src/crm/qualificacao.ts:120-132 | "milhões" is not a unit of millions, so digits before it are read as a bare number |
| Qualificacao.PrecoDireto | src/crm/qualificacao.ts:126-132 | Bare digits above 10000 are reais converted to centavos; up to 10000 they are returned unchanged |
| Qualificacao.LeituraDiretaMilhar | src/crm/qualificacao.ts:127 | In the bare-number branch a dot is a thousands separator: "350.000" reads as "350000" |
| Qualificacao.PrecoEmReais | src/crm/qualificacao.ts:110-132 | "R$ a.b" with digit groups reads as the digits of `ab`, converted as a bare number |
| Qualificacao.PrecoComPalavra | src/crm/qualificacao.ts:126-132 | Digits followed by a word that is not a unit read as the bare number |
| Qualificacao.InterpretarPreco | src/crm/qualificacao.ts:109-134 | Text without a digit gives `null`: no branch of the cascade can produce a number. Which branch reads the text is stated by `InterpretarMil`, `InterpretarMilhao` and `InterpretarDireto`, and the readings of concrete prices by the lemmas below them |
| Numbers.ParseFloatInteiro | src/crm/qualificacao.ts:128 | `parseFloat` of leading digits not followed by more number reads their value |
| Numbers.ParseFloatFracionario | src/crm/qualificacao.ts:122 | `parseFloat` of digits, a point and digits reads the integer part plus the fraction |
| Numbers.ParseFloat | src/crm/qualificacao.ts:116-128 | `parseFloat` of text without a digit is NaN. `ParseFloatSemSinal` states that text without a minus sign never reads as negative, and `ParseFloatInteiro`, `ParseFloatFracionario` and `ParseFloatDigits` give the value of digit strings |
| Numbers.ParseFloatSemSinal | src/imoveis/busca.ts:146 | `parseFloat` of text without a minus sign is never negative |
| Busca.PrimeiroIndice | src/imoveis/busca.ts:56-61 | The first table entry, in declaration order, whose key occurs in the text; no earlier key occurs |
| Busca.PrimeiroDaTabela | src/imoveis/busca.ts:56-69 | The `for … break` scan over a table returns the first contained key's value |
| Busca.DetectarTipo | src/imoveis/busca.ts:55-61 | The first type key found is appended to `tipo`, so on fresh criteria `tipo` has exactly one element |
| Busca.DetectarNegocio | src/imoveis/busca.ts:63-69 | The first business key found sets `negocio` |
| Busca.DetectarContagens | src/imoveis/busca.ts:71-87 | Rooms, suites and parking spaces are the numbers of the first matches of their patterns |
| Busca.DetectarPreco | src/imoveis/busca.ts:89-98 | The maximum and minimum prices are `parseValorPreco` of the first matches of their patterns |
| Busca.DetectarArea | src/imoveis/busca.ts:100-112 | The area is a minimum when "acima" or "partir" occurs. Otherwise it is a maximum when "até" or "ate" occurs, and a minimum when neither does |
| Busca.DetectarBairro | src/imoveis/busca.ts:114-129 | The neighbourhood is set only from a place phrase that passes the filter, and it is then longer than two characters |
| Busca.InterpretarBusca | src/imoveis/busca.ts:51-143 | Every criterion as a function of the lowercased, trimmed text. `texto` is the original input exactly when type, business, rooms, maximum price and neighbourhood are all absent. No other criterion is set |
| Busca.ApVenceTudo | src/imoveis/busca.ts:9-12 | Any text containing "ap" is an apartment search |
| Busca.TipoCasa | src/imoveis/busca.ts:8-29 | The type is `casa` exactly when "casa" occurs and "ap" does not |
| Busca.NegocioPorPalavras | src/imoveis/busca.ts:32-41 | `venda` exactly when a sale word occurs. `aluguel` exactly when no sale word and some rental word occur. Never `venda_aluguel` |
| Busca.NumeroAntesDaPalavra | src/imoveis/busca.ts:72-87 | In text without other digits, the number right before a room, suite or parking word is the count read |
| Busca.QuartosAntesDaPalavra | src/imoveis/busca.ts:72-75 | "N quarto…" after digit-free text gives N rooms |
| Busca.ParseValorPreco | src/imoveis/busca.ts:145-158 | A value without digits is 0, not NaN. The unit branches are stated by `ValorEmMil`, `ValorEmMilhoes` and `ValorSemUnidade`, and the sign by `ValorNaoNegativo` |
| Busca.ValorNaoNegativo | src/imoveis/busca.ts:145-158 | A captured price of digits, dots and commas is never negative |
| Busca.ValorEmMil | src/imoveis/busca.ts:149-152 | Digits with "mil" or "k" are thousands of reais in centavos |
| Busca.ValorEmMilhoes | src/imoveis/busca.ts:153-155 | Digits with "mi", or a unit starting with "milh", are millions of reais in centavos |
| Busca.ValorSemUnidade | src/imoveis/busca.ts:156-157 | Bare digits above 1000 are reais converted to centavos; up to 1000 they are thousands of reais |
| Busca.ValorSemUnidadeDe | src/imoveis/busca.ts:146-157 | Without a unit, any parsed number above 1000 is reais in centavos and any other is thousands of reais |
| Busca.ValorMilDe | src/imoveis/busca.ts:149-152 | With a unit that lowercases to "mil" or "k", any parsed number is thousands of reais in centavos |
| Busca.ValorMilhoesDe | src/imoveis/busca.ts:153-155 | With a unit that lowercases to "mi" or to a word starting with "milh", any parsed number is millions of reais in centavos |
| Busca.LeituraDeDigitos | src/imoveis/busca.ts:146 | Removing dots, turning the comma into a point and `parseFloat` read a digit string as its value |
| Busca.CapturaAteMil | src/imoveis/busca.ts:90 | "até N mil…" captures N with the unit "mil", whatever follows "mil" |
| Busca.PrecoAteMil | src/imoveis/busca.ts:90-93 | "até 500 mil" gives a maximum of 50 000 000 centavos |
| Busca.PrecoNoInicio | src/imoveis/busca.ts:90-93 | A price pattern that matches at the start gives `parseValorPreco` of its groups |
| Busca.MilhoesLidosComoMil | src/imoveis/busca.ts:90-93 | "até N milhões" is read as N thousand reais, because "mil" wins the alternation |
| Busca.MilhoesLidoComoMil | src/imoveis/busca.ts:90 | The unit group never captures "milh…" at a position where "mil" starts |
| Busca.UnidadeNuncaMilhoes | src/imoveis/busca.ts:90-95 | The captured unit is always "mil", "k" or "mi" |
| Busca.UnidadeEm | src/imoveis/busca.ts:90-95 | The captured unit is the text at that position, and one is captured wherever "k" or "mi" starts. That it is only ever "mil", "k" or "mi" is `UnidadeNuncaMilhoes` |
| Busca.AposChave | src/imoveis/busca.ts:90-95 | A keyword alternation matches exactly when some keyword is followed by a match of the rest. The result is that of the first such keyword in the listed order |
| Busca.FimPreguicoso | src/imoveis/busca.ts:115 | The lazy place group stops at the first position where the terminator matches |
| Busca.FimPreguicosoNoFim | src/imoveis/busca.ts:115 | A run of place letters with no terminator extends to the end of the text |
| Busca.LocalAposEm | src/imoveis/busca.ts:115-117 | "em W" for a single word of place letters captures W |
| Busca.BairroDe | src/imoveis/busca.ts:117-128 | A neighbourhood is the phrase itself, longer than two characters. It is not a type or business key (own or inherited) and not "venda" or "aluguel". "centro" is kept as "centro" |
| Busca.ConstructorNaoEhBairro | src/imoveis/busca.ts:119-124 | "constructor" is never a neighbourhood, since every object has that key |
| CrmTables.LeadToRow | src/crm/store.ts:62-80 | Reading back a written row gives the same lead |
| CrmTables.LeadRowVoltaEIda | src/crm/store.ts:62-102 | Writing back a read row gives the same row: the mapping loses nothing either way |
| CrmTables.IndiceLead | src/crm/store.ts:165-170 | The position of the row with that primary key, unique when keys are; absent exactly when no row has it |
| CrmTables.Mesclar | src/crm/store.ts:208-214 | The merge keeps `id` and `criadoEm` and sets `atualizadoEm` to now. Each of the other twelve fields takes the supplied value when its key is present, `undefined` included, and keeps the old value when it is absent |
| CrmTables.MesclarUmCampo | src/crm/store.ts:208-214 | An update naming only `email` changes `email` and `atualizadoEm` and nothing else. Naming it with `undefined` clears it |
| CrmTables.MesclarVazio | src/crm/store.ts:208-214 | An empty update only moves `atualizadoEm` |
| CrmTables.MesclarDuasVezes | src/crm/store.ts:208-214 | A full update after any update is the same as the full update alone |
| CrmTables.ListagemLeads | src/crm/store.ts:180-202 | Only rows matching status and origin, newest update first, at most `limite` (50 by default), and all matches when they fit |
| CrmTables.ListagemSemFiltro | src/crm/store.ts:180-202 | Without filters and with room for all, the listing is a permutation of the table |
| CrmTables.LeadsVencidos | src/crm/store.ts:227-235 | Exactly the open leads whose follow-up is set and not after now, earliest first |
| CrmTables.ListagemInteracoes | src/crm/store.ts:273-285 | The lead's interactions, newest first, at most `limite` (20 by default), and all of them when they fit |
| CrmTables.ListagemVisitas | src/crm/store.ts:308-345 | Only visits matching every given filter, date bounds inclusive, earliest first, at most `limite` (50 by default) |
| CrmTables.MesclarVisita | src/crm/store.ts:351-357 | The visit merge keeps `id` and `criadoEm` and sets `atualizadoEm` to now. Each of the other eight fields takes the supplied value when present and keeps the old one when absent |
| CrmTables.TelefoneCasaSufixo | src/crm/store.ts:172-178 | The `LIKE '%digits'` test holds iff the stored phone, without '-', ' ' and '+', ends with the digits asked for |
| CrmTables.LeadPorTelefone | src/crm/store.ts:172-178 | The lead found has a matching phone; when none is found, no lead's phone matches |
| CrmTables.GruposPorStatus | src/crm/store.ts:237-240 | One group per status that occurs, holding its count |
| CrmTables.ContarStatus | src/crm/store.ts:237-245 | The count for a status is at most the number of leads, and it is positive exactly when some lead has that status |
| CrmTables.SomaStatusTotal | src/crm/store.ts:237-246 | The per-status counts add up to the number of leads |
| CrmTables.CrmStore.CriarLead | src/crm/store.ts:155-163 | The lead takes the fresh id and now as both timestamps and is appended; the other tables do not change |
| CrmTables.CrmStore.BuscarLeadPorId | src/crm/store.ts:165-170 | Found exactly when a lead has that id, and the lead found has it |
| CrmTables.CrmStore.BuscarLeadPorTelefone | src/crm/store.ts:172-178 | As `LeadPorTelefone` on the current table |
| CrmTables.CrmStore.ListarLeads | src/crm/store.ts:180-202 | As `ListagemLeads` on the current table |
| CrmTables.CrmStore.AtualizarLead | src/crm/store.ts:204-225 | Unknown id: `null` and no change. Otherwise the row becomes the merge and is returned; keys and the other tables do not change |
| CrmTables.CrmStore.LeadsParaFollowup | src/crm/store.ts:227-235 | As `LeadsVencidos` on the current table |
| CrmTables.CrmStore.ContarLeadsPorStatus | src/crm/store.ts:237-246 | An entry for exactly the statuses that occur, holding how many leads have each |
| CrmTables.CrmStore.RegistrarInteracao | src/crm/store.ts:250-271 | With the lead present, the interaction is appended under the fresh id and the lead's last contact becomes its date. With the lead absent the insert fails with the foreign-key error and nothing changes |
| CrmTables.CrmStore.ListarInteracoes | src/crm/store.ts:273-285 | As `ListagemInteracoes` on the current table |
| CrmTables.CrmStore.CriarVisita | src/crm/store.ts:289-299 | The visit is appended with the fresh id and timestamps when its lead exists. Otherwise the foreign-key error, and nothing changes |
| CrmTables.CrmStore.BuscarVisitaPorId | src/crm/store.ts:301-306 | Found exactly when a visit has that id |
| CrmTables.CrmStore.ListarVisitas | src/crm/store.ts:308-345 | As `ListagemVisitas` on the current table |
| CrmTables.CrmStore.AtualizarVisita | src/crm/store.ts:347-368 | Unknown id: `null` and no change. A merge naming a missing lead: the foreign-key error, distinct from `null`, and no change. Otherwise the merged visit replaces the row and is returned |
| CrmTables.CrmStore.VisitasHoje | src/crm/store.ts:370-382 | As `ListagemVisitas` with the day's window as both date bounds, so only visits inside the window, earliest first |
| Sql.Consulta | src/crm/store.ts:195-201 | `WHERE … ORDER BY … LIMIT n`: matching rows only, drawn from the table, sorted, and at most n. Every match is returned when they fit, and exactly n rows when more match. `ConsultaTopo` states that the kept rows are the first by key |
| Sql.ConsultaTopo | src/crm/store.ts:195-201 | A matching row the limit leaves out sorts no earlier than any returned row |
| Sql.LimiteTopoFora | src/crm/store.ts:196-199 | On sorted rows, a row the limit drops sorts no earlier than any row it keeps |
| Sql.ConsultaLinhas | src/crm/store.ts:195-201 | Every row of the limited, sorted result passes the filter and comes from the table |
| Sql.Filtrar | src/crm/store.ts:195 | `WHERE`: the kept rows come from the table and pass the test, and every row that passes is kept |
| Sql.OrdenarPor | src/crm/store.ts:199 | `ORDER BY`: the result is sorted on the key and is a permutation of its input |
| Sql.Limitar | src/crm/store.ts:196-199 | `LIMIT n`: a prefix of the sorted rows, of length n when there are more |
| Sql.ConsultaCompleta | src/crm/store.ts:195-201 | When the matches fit the limit, every matching row is returned |
| Sql.Contar | src/crm/store.ts:239 | `COUNT(*)` with a condition is the number of rows that pass it |
| Sql.LikeMinusculas | src/imoveis/store.ts:223-226 | `LIKE` ignores ASCII case, so lowering both sides changes no answer |
| Sql.Agrupar | src/crm/store.ts:241-245 | The loop over the `GROUP BY` rows builds a record with exactly those keys and their counts |
| Sql.LikeContem | src/imoveis/store.ts:223-226 | `LOWER(col) LIKE LOWER('%w%')` for a pattern without wildcards is an ASCII case-insensitive substring test |
| Sql.LikeTermina | src/crm/store.ts:175-176 | `LIKE '%w'` is an ASCII case-insensitive suffix test |
| ImoveisSchema.StatusImovelTodosCompleto | src/imoveis/schema.ts:20 | `STATUS_IMOVEL` lists every listing status once |
| ImoveisTables.MesclarEndereco | src/imoveis/store.ts:277 | Each of the nine address fields takes the supplied value when present and keeps the old one when absent. An empty address update changes nothing |
| ImoveisTables.MesclarImovel | src/imoveis/store.ts:271-278 | The listing merge keeps `id` and `criadoEm`, sets `atualizadoEm` to now, merges the address field by field. Each of the other twenty-three fields takes the supplied value when present and keeps the old one when absent |
| ImoveisTables.MesclarImovelVazio | src/imoveis/store.ts:271-278 | An empty update only moves `atualizadoEm` |
| ImoveisTables.MesclarSoCidade | src/imoveis/store.ts:277 | Updating only the city keeps the rest of the address |
| ImoveisTables.Listagem | src/imoveis/store.ts:180-197 | Only rows matching status and type, newest update first, at most `limite` (50 by default) |
| ImoveisTables.Busca | src/imoveis/store.ts:199-265 | Only listings meeting every criterion, newest update first, at most 50, and all matches when at most 50 match |
| ImoveisTables.CorrespondeLimites | src/imoveis/store.ts:207-254 | A match has the business asked for or `venda_aluguel`. Its price, rooms, parking and area lie inside every given bound, inclusive. A listing lacking a bounded column never matches |
| ImoveisTables.LimitesBastam | src/imoveis/store.ts:227-254 | Conversely, meeting every bound and the other criteria is a match |
| ImoveisTables.BuscaPorSubstring | src/imoveis/store.ts:223-259 | `bairro` and `texto` are case-insensitive substring tests; `texto` looks in title, description and neighbourhood |
| ImoveisTables.BuscaIgnora | src/imoveis/store.ts:199-259 | `suitesMin`, `banheirosMin` and `amenidades` do not affect the result |
| ImoveisTables.VaziosSaoAusentes | src/imoveis/store.ts:203-226 | Empty lists and empty strings impose nothing, like absent criteria |
| ImoveisTables.SemCriteriosTudo | src/imoveis/store.ts:261-262 | With no criteria and at most 50 rows, the search returns the whole table |
| ImoveisTables.CondicoesDeCategoria | src/imoveis/store.ts:203-214 | The `tipo IN`, `negocio` and `status IN` conjuncts mean exactly their criteria |
| ImoveisTables.CondicoesDeLocal | src/imoveis/store.ts:215-226 | The city, state and neighbourhood conjuncts mean exactly their criteria |
| ImoveisTables.CondicoesDePreco | src/imoveis/store.ts:227-234 | The price conjuncts mean exactly their bounds |
| ImoveisTables.CondicoesDeComodos | src/imoveis/store.ts:235-246 | The room and parking conjuncts mean exactly their bounds |
| ImoveisTables.CondicoesDeArea | src/imoveis/store.ts:247-254 | The area conjuncts mean exactly their bounds |
| ImoveisTables.CondicaoDeTexto | src/imoveis/store.ts:255-259 | The free-text conjunct means exactly its criterion |
| ImoveisTables.SemImovelUnicos | src/imoveis/store.ts:292-295 | Deleting by key keeps keys unique and removes one row exactly when the key existed |
| ImoveisTables.SomaStatusTotal | src/imoveis/store.ts:297-306 | The per-status counts add up to the number of listings |
| ImoveisTables.ImoveisStore.Criar | src/imoveis/store.ts:158-172 | The listing takes the fresh id and now as both timestamps and is appended |
| ImoveisTables.ImoveisStore.BuscarPorId | src/imoveis/store.ts:174-178 | Found exactly when a listing has that id |
| ImoveisTables.ImoveisStore.Listar | src/imoveis/store.ts:180-197 | As `Listagem` on the current table |
| ImoveisTables.ImoveisStore.Buscar | src/imoveis/store.ts:199-265 | The `where` list built step by step returns exactly `Busca` of the table |
| ImoveisTables.ImoveisStore.Atualizar | src/imoveis/store.ts:267-290 | Unknown id: `null` and no change. Otherwise the row becomes the merge and is returned |
| ImoveisTables.ImoveisStore.Remover | src/imoveis/store.ts:292-295 | True exactly when the listing existed; afterwards no row has that id |
| ImoveisTables.ImoveisStore.ContarPorStatus | src/imoveis/store.ts:297-306 | An entry for exactly the statuses that occur, holding their counts |
| ImoveisTables.ContarStatus | src/imoveis/store.ts:297-306 | The count for a status is at most the number of listings, and it is positive exactly when some listing has that status |
| Capture.CanalParaOrigem | src/crm/capture.ts:61-70 | Case-insensitive: "instagram" gives instagram, every other channel gives whatsapp |
| Capture.CanalSemCaixa | src/crm/capture.ts:62 | Lower-casing the channel first changes nothing |
| Capture.NovoLead | src/crm/capture.ts:38-44 | The new lead has status `novo`, the contact's phone, the origin of its channel, and the contact's name or "Contato <telefone>" |
| Capture.RegistroMensagem | src/crm/capture.ts:27-33 | A "mensagem" interaction on the channel, dated now, with the message or the default text |
| Capture.Contatado | src/crm/store.ts:266-269 | Recording an interaction moves only that lead's last contact and update time; phones and keys stay |
| Capture.ContatoConhecido | src/crm/capture.ts:25-35 | A known contact gets exactly one "Mensagem recebida" interaction (or the message); no lead is created |
| Capture.ContatoNovo | src/crm/capture.ts:37-55 | An unknown contact becomes exactly one new lead with exactly one "Primeiro contato" interaction (or the message) |
| Capture.CapturarLead | src/crm/capture.ts:20-59 | A phone that matches returns that lead with `isNew` false. Otherwise the created lead is returned, as created, with `isNew` true. A phone the lookup can recognise is found on the next message |
| Capture.TelefoneReencontrado | src/crm/store.ts:172-178 | A stored lead whose phone matches makes the lookup succeed |
| Capture.SimboloNaoReencontrado | src/crm/store.ts:173-176 | A stored phone with a character other than a digit, '-', ' ' or '+' after one of its digits is never returned by a lookup of that same phone, in any table |
| CrmTables.SoDigitosDoLimpo | src/crm/store.ts:174-176 | Stripping '-', ' ' and '+' from a phone keeps exactly its digits |

## Left out

- Floating point: `parseFloat`, `Number.isFinite` and the price arithmetic are exact reals. IEEE rounding and overflow to infinity are not modelled.
- Timestamps: ISO 8601 strings are integers in milliseconds. String comparison of timestamps is integer comparison.
- The follow-up's `setDate` in local time is the addition of whole days. Daylight-saving shifts are not modelled.
- Pipeline.ExecutarTransicao, Pipeline.LeadAposTransicao, Capture.CapturarLead, Capture.ContatoConhecido, Capture.ContatoNovo, Followup.AgendarLead, Followup.AgendarFollowupsAutomaticos: one clock reading `agora` stands for every `new Date()` of a call. The source reads the clock several times in one call:
  - `executarTransicao` reads it for the event (src/crm/pipeline.ts:43), for `atualizadoEm` inside `atualizarLead` (src/crm/store.ts:213) and again inside `registrarInteracao` (src/crm/store.ts:269);
  - the capture path reads it in `criarLead` (src/crm/store.ts:156), for the interaction's date (src/crm/capture.ts:31 and 51) and in `registrarInteracao`;
  - the follow-up batch reads it once per lead it updates.

  With separate readings, the source only guarantees that, after a move, `atualizadoEm` is no earlier than `dataUltimoContato` and than the event's timestamp. Where the model's contracts say these are equal, they hold for calls whose readings coincide.
- The clock, `randomUUID()` and the store a call opens are parameters. Opening, migrating and closing the SQLite database (`MIGRATIONS`, PRAGMAs, `close`) are not modelled.
- `visitasHoje`'s local-midnight window is passed in as two bounds, because it depends on the time zone.
- SQL `ORDER BY` with equal keys: rows keep table order. SQLite does not promise any order for ties.
- `JSON.stringify`/`JSON.parse` of the interest column are an injective wrapper. The text of the JSON in the qualified prompt is a parameter.
- Case folding: `toLowerCase` covers ASCII and Latin-1 capitals, and SQL `LOWER` covers ASCII only. Other Unicode case mappings are not modelled.
- `parseInt` results are unbounded integers, with no loss of precision beyond 2^53.
- Prompt and reminder wording: texts are kept verbatim, and contracts state what they contain.
- The lead and visit row mappers for visits, and the listing row mappers, are not modelled: rows hold the records directly. Only the lead mapping is proved lossless.
- `formatarPreco`, `formatarArea`, `resumoImovel` and `resumoVisita` are not modelled. They depend on the locale's number and date formatting.
- The agent adapters in `src/crm/tools.ts` and `src/imoveis/tools.ts` are not modelled: parameter schemas, JSON replies, and a fresh store per call.
- `src/config/paths.ts` is not modelled: environment and home-directory lookup.
- Inputs outside the declared TypeScript types (a status string that is not a stage, for example) cannot be written in the model.
- Examples from the test files with concrete sentences are covered by the general lemmas: `PrecoEmMil` for "500 mil", `PrecoEmMilhoes` with `ParseFloatFracionario` for "1.2 milhão", `PrecoEmReais` for "R$ 350.000" and `PrecoAteMil` for "até 500 mil". They are not evaluated literally.
- Foreign-key violations: SQLite throws `FOREIGN KEY constraint failed`, and `registrarInteracao`, `criarVisita` and `atualizarVisita` let it propagate. The model returns this as the value `ChaveEstrangeiraViolada` with the tables unchanged. Exceptions as control flow are not modelled.

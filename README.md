# avicheckpoint core in Dafny

avicheckpoint is a questionnaire service for small poultry farms. A producer
fills in four sections of a form: health (`saude`), nutrition (`nutricao`),
egg and management quality (`avaliacao`) and disease red flags (`doencas`).
The backend stores the form, moves it through the states RASCUNHO, SUBMETIDO
and ANALISADO, and analyses it with a rule engine. The engine turns answers
into strengths, improvements and alerts, a clamped score, a panorama
sentence, a set of recommended professions and comments. On top of the
analyses sit a producer dashboard and trend report, and a ranker that
recommends veterinarians. The browser front end has a second, independent
rule engine, a password test, tab navigation and a suggestion filter.

This project models that core and proves properties of the model:

- `Status`, `TipoPerguntaModelo`: the two string-valued enums and their case-sensitive `fromString`.
- `Json`, `Common`, `Ordenacao`: the answer values, `Option`/`Result` with the exceptions the code throws, lower-casing, `contains`, `String.join`, `limit`, and the stable sort the streams use (an insertion sort proved sorted, a permutation and stable).
- `Formulario`: the `FormularioResposta` entity as a class whose methods update its fields in place.
- `RepositorioFormulario`: the file-backed form store, with the files and the per-producer index as map fields (`existe` is `id in arquivos`, used by the id loop).
- `Usuarios`: the list-backed producer and veterinarian tables (the two implementations are the same code, so one class serves both).
- `FormularioServico`, `UsuarioServico`: the services that create, update and submit forms and register and update users.
- `Analise`, `AnaliseServico`: the analysis engine. Each section's rules are a table, which is the specification. The `analisar*` methods append to lists and a set owned by an accumulator object, as the service's methods do to caller-owned lists.
- `Historico`: the dashboard, history, comparison and trend report. The dashboard is filled field by field through a `Painel` object, as the DTO is filled by setters.
- `Recomendacao`: compatibility and specialisation scores, motives, specialties, the ranking pipeline and the specialty search.
- `Frontend`: `validatePassword`, tab navigation, `buildFindingsFromAnswers` and `filterProfessionalsSuggestion` from `script.js`.

Time, randomness and password hashing are parameters. A `Relogio` carries the
instant and the formatted timestamp used in form ids. `sorteio` carries the
random draw of the simulated distance. `codificar` is the password encoder.
Exceptions are `Err` values of `Result`, so each error path the source takes
is a case of a contract.

## Model

| member | source | states |
|---|---|---|
| Common.Limitar | Codigo/Backend/avicheckpoint/src/main/java/com/avicheckpoint/service/RecomendacaoService.java:69 | Stream.limit(n): the first min(n, length) elements, a prefix of the input |
| Status.FromString | Codigo/Backend/avicheckpoint/src/main/java/com/avicheckpoint/model/StatusFormulario.java:33-40 | accepts exactly "rascunho", "submetido", "analisado", returning the status whose valor it is; any other string is IllegalArgumentException |
| Status.ValoresDistintos | Codigo/Backend/avicheckpoint/src/main/java/com/avicheckpoint/model/StatusFormulario.java:11-21 | the three valor strings are pairwise distinct |
| Status.IdaEVolta | Codigo/Backend/avicheckpoint/src/main/java/com/avicheckpoint/model/StatusFormulario.java:29-40 | fromString(getValor(s)) == s for every status |
| Status.MaiusculasRejeitadas | Codigo/Backend/avicheckpoint/src/main/java/com/avicheckpoint/model/StatusFormulario.java:33-40 | matching is case-sensitive: the upper-cased form of any string (what the form controller passes) is rejected |
| TipoPerguntaModelo.FromString | Codigo/Backend/avicheckpoint/src/main/java/com/avicheckpoint/model/TipoPergunta.java:55-62 | accepts exactly the six valor strings, returning the matching type; any other string is IllegalArgumentException |
| TipoPerguntaModelo.ValoresDistintos | Codigo/Backend/avicheckpoint/src/main/java/com/avicheckpoint/model/TipoPergunta.java:13-43 | the six valor strings are pairwise distinct |
| TipoPerguntaModelo.IdaEVolta | Codigo/Backend/avicheckpoint/src/main/java/com/avicheckpoint/model/TipoPergunta.java:51-62 | fromString(getValor(t)) == t for every type |
| TipoPerguntaModelo.SensivelACaixa | Codigo/Backend/avicheckpoint/src/main/java/com/avicheckpoint/model/TipoPergunta.java:55-62 | "yesno" parses to YESNO while "YESNO" is rejected |
| Ordenacao.OrdenarOrdena | Codigo/Backend/avicheckpoint/src/main/java/com/avicheckpoint/repository/FormularioRepositoryImpl.java:157 | the stable sort used for every sorted stream returns its input ordered by the key |
| Ordenacao.OrdenarPermuta | Codigo/Backend/avicheckpoint/src/main/java/com/avicheckpoint/repository/FormularioRepositoryImpl.java:157 | the sort returns a permutation of its input (same multiset) |
| Ordenacao.OrdenarEstavel | Codigo/Backend/avicheckpoint/src/main/java/com/avicheckpoint/repository/FormularioRepositoryImpl.java:157 | the sort is stable: the elements of any one key keep their input order |
| Formulario.FormularioResposta.constructor | Codigo/Backend/avicheckpoint/src/main/java/com/avicheckpoint/model/FormularioResposta.java:50-55 | a new form has the given id and producer, status RASCUNHO, an empty answer map, a fill-in date and no result |
| Formulario.FormularioResposta.AdicionarSecao | Codigo/Backend/avicheckpoint/src/main/java/com/avicheckpoint/model/FormularioResposta.java:119-122 | sets or overwrites only that section, refreshes the update date, and every other section reads as before; null answers throw and change nothing |
| Formulario.FormularioResposta.ObterSecao | Codigo/Backend/avicheckpoint/src/main/java/com/avicheckpoint/model/FormularioResposta.java:128-134 | the stored section when it is an object, else an empty map; null answers throw |
| Formulario.FormularioResposta.ObterResposta | Codigo/Backend/avicheckpoint/src/main/java/com/avicheckpoint/model/FormularioResposta.java:139-142 | obterSecao(s).get(q): the stored answer, or null when the question is absent; fails exactly when obterSecao does |
| Formulario.FormularioResposta.IsCompleto | Codigo/Backend/avicheckpoint/src/main/java/com/avicheckpoint/model/FormularioResposta.java:147-152 | holds iff all four section keys are present; null answers throw |
| Formulario.FormularioResposta.Submeter | Codigo/Backend/avicheckpoint/src/main/java/com/avicheckpoint/model/FormularioResposta.java:157-164 | a complete form becomes SUBMETIDO with a new update date; an incomplete one throws and is left unchanged |
| RepositorioFormulario.SufixoInjetivo | Codigo/Backend/avicheckpoint/src/main/java/com/avicheckpoint/repository/FormularioRepositoryImpl.java:238 | distinct counters give distinct ids base_k |
| RepositorioFormulario.SufixosDistintos | Codigo/Backend/avicheckpoint/src/main/java/com/avicheckpoint/repository/FormularioRepositoryImpl.java:234-240 | the first n suffixed ids are n distinct strings, so the id loop ends within |arquivos| + 1 rounds |
| RepositorioFormulario.RemoverPrimeiro | Codigo/Backend/avicheckpoint/src/main/java/com/avicheckpoint/repository/FormularioRepositoryImpl.java:212 | List.remove(Object) shortens the index by one exactly when the id is in it |
| RepositorioFormulario.RemoverSemRepeticao | Codigo/Backend/avicheckpoint/src/main/java/com/avicheckpoint/repository/FormularioRepositoryImpl.java:211-213 | on a duplicate-free index, removing an id removes every occurrence, keeps the others in order, and leaves the index duplicate-free |
| RepositorioFormulario.RepositorioFormularios.constructor | Codigo/Backend/avicheckpoint/src/main/java/com/avicheckpoint/repository/FormularioRepositoryImpl.java:28-31 | an empty store that satisfies the store invariant |
| RepositorioFormulario.RepositorioFormularios.BuscarPorId | Codigo/Backend/avicheckpoint/src/main/java/com/avicheckpoint/repository/FormularioRepositoryImpl.java:115-136 | finds a form iff a file with that id exists, and the form found carries that id |
| RepositorioFormulario.RepositorioFormularios.GerarNovoId | Codigo/Backend/avicheckpoint/src/main/java/com/avicheckpoint/repository/FormularioRepositoryImpl.java:228-243 | returns an unused id: the base id when free, else base_k for the smallest free k >= 1 |
| RepositorioFormulario.RepositorioFormularios.Salvar | Codigo/Backend/avicheckpoint/src/main/java/com/avicheckpoint/repository/FormularioRepositoryImpl.java:85-112 | a new form gets a fresh id and a fill-in date; every save refreshes the update date, writes the file and appends the id to the producer index only if absent; the store invariant (index duplicate-free and consistent with the files) is kept |
| RepositorioFormulario.RepositorioFormularios.Gravar | Codigo/Backend/avicheckpoint/src/main/java/com/avicheckpoint/repository/FormularioRepositoryImpl.java:96-106 | writes the file, creates the producer directory when missing, and appends the id to that producer's index only if absent; other indexes are untouched |
| RepositorioFormulario.RepositorioFormularios.Atualizar | Codigo/Backend/avicheckpoint/src/main/java/com/avicheckpoint/repository/FormularioRepositoryImpl.java:191-193 | the same new state and effect on the form as salvar |
| RepositorioFormulario.RepositorioFormularios.BuscarPorProdutor | Codigo/Backend/avicheckpoint/src/main/java/com/avicheckpoint/repository/FormularioRepositoryImpl.java:139-160 | exactly the indexed forms whose file exists, newest fill-in date first |
| RepositorioFormulario.RepositorioFormularios.BuscarPorStatus | Codigo/Backend/avicheckpoint/src/main/java/com/avicheckpoint/repository/FormularioRepositoryImpl.java:163-188 | an unknown status string throws; otherwise only forms whose status valor is the one asked for, producer directory by producer directory |
| RepositorioFormulario.RepositorioFormularios.SoComStatus | Codigo/Backend/avicheckpoint/src/main/java/com/avicheckpoint/repository/FormularioRepositoryImpl.java:177-181 | the loop keeps exactly the forms of the status, in order |
| RepositorioFormulario.RepositorioFormularios.Excluir | Codigo/Backend/avicheckpoint/src/main/java/com/avicheckpoint/repository/FormularioRepositoryImpl.java:196-220 | false and no change for an unknown id; otherwise the file goes, only that id leaves its producer's index, the other ids keep their order, and the invariant is kept |
| FormularioServico.CompletoConcorda | Codigo/Backend/avicheckpoint/src/main/java/com/avicheckpoint/service/FormularioService.java:124-134 | the service's completeness test agrees with the entity's isCompleto |
| FormularioServico.CompletoSoPelasChaves | Codigo/Backend/avicheckpoint/src/main/java/com/avicheckpoint/service/FormularioService.java:124-134 | completeness looks at the four keys only: empty or null sections still count, removing one section breaks it, and null answers are incomplete |
| FormularioServico.SecaoValidaCasos | Codigo/Backend/avicheckpoint/src/main/java/com/avicheckpoint/service/FormularioService.java:140-150 | a non-map or empty map is invalid, a map whose values are all null or blank is invalid, and one non-blank answer makes a section valid |
| FormularioServico.MapearParaResponse | Codigo/Backend/avicheckpoint/src/main/java/com/avicheckpoint/service/FormularioService.java:155-167 | copies every field unchanged, and completo is the completeness of the answers |
| FormularioServico.FormularioServico.SalvarFormulario | Codigo/Backend/avicheckpoint/src/main/java/com/avicheckpoint/service/FormularioService.java:27-44 | stores a new form under a fresh id, SUBMETIDO iff submission was asked for and the answers are complete, else RASCUNHO |
| FormularioServico.FormularioServico.AtualizarFormulario | Codigo/Backend/avicheckpoint/src/main/java/com/avicheckpoint/service/FormularioService.java:49-65 | an unknown id throws and changes nothing; otherwise the answers are replaced, the status becomes SUBMETIDO when asked and complete and otherwise stays what it was (ANALISADO included), and only that form changes |
| FormularioServico.FormularioServico.SubmeterFormulario | Codigo/Backend/avicheckpoint/src/main/java/com/avicheckpoint/service/FormularioService.java:98-110 | an unknown or incomplete form throws and changes nothing; otherwise the status becomes SUBMETIDO whatever it was, including ANALISADO |
| Usuarios.MaiorId | Codigo/Backend/avicheckpoint/src/main/java/com/avicheckpoint/repository/ProdutorRepositoryImpl.java:132-138 | the largest stored id, or 0 for an empty table |
| Usuarios.RepositorioUsuarios.GerarProximoId | Codigo/Backend/avicheckpoint/src/main/java/com/avicheckpoint/repository/ProdutorRepositoryImpl.java:132-138 | max id + 1, or 1 when empty: strictly greater than every stored id |
| Usuarios.RepositorioUsuarios.Salvar | Codigo/Backend/avicheckpoint/src/main/java/com/avicheckpoint/repository/ProdutorRepositoryImpl.java:64-80 | a null id gets gerarProximoId (fresh) and a creation date; the update date is always set; upsert: the old entries with that id go, the others keep their order, and the saved entry is the only one with its id and is last |
| Usuarios.RepositorioUsuarios.Atualizar | Codigo/Backend/avicheckpoint/src/main/java/com/avicheckpoint/repository/ProdutorRepositoryImpl.java:110-112 | the same new state as salvar |
| Usuarios.RepositorioUsuarios.BuscarPorId | Codigo/Backend/avicheckpoint/src/main/java/com/avicheckpoint/repository/ProdutorRepositoryImpl.java:83-87 | the first entry with that id, or none iff no entry has it |
| Usuarios.RepositorioUsuarios.BuscarPorEmail | Codigo/Backend/avicheckpoint/src/main/java/com/avicheckpoint/repository/ProdutorRepositoryImpl.java:90-94 | the first entry whose email equals the query ignoring case, or none iff there is no such entry |
| Usuarios.RepositorioUsuarios.ExistePorEmail | Codigo/Backend/avicheckpoint/src/main/java/com/avicheckpoint/repository/ProdutorRepositoryImpl.java:127-129 | holds iff some entry's email equals the query ignoring case |
| Usuarios.RepositorioUsuarios.BuscarPorEstado | Codigo/Backend/avicheckpoint/src/main/java/com/avicheckpoint/repository/ProdutorRepositoryImpl.java:102-107 | exactly the entries with an address whose state equals the query ignoring case |
| Usuarios.RepositorioUsuarios.Excluir | Codigo/Backend/avicheckpoint/src/main/java/com/avicheckpoint/repository/ProdutorRepositoryImpl.java:115-124 | true iff some entry had the id; afterwards none has it, the others are kept in order, and nothing changes when none had it |
| Usuarios.RepositorioUsuarios.BuscarPorFormacao | Codigo/Backend/avicheckpoint/src/main/java/com/avicheckpoint/repository/VeterinarioRepositoryImpl.java:112-117 | exactly the vets whose formação contains the query, both lower-cased |
| Usuarios.RepositorioUsuarios.BuscarParaRecomendacao | Codigo/Backend/avicheckpoint/src/main/java/com/avicheckpoint/repository/VeterinarioRepositoryImpl.java:122-136 | with a state, always succeeds with exactly the first min(5, n) of the n vets of that state (ignoring case) and, when one is given, of that formação, in stored order; a null state throws as soon as a vet has an address, and otherwise yields nothing |
| Usuarios.PrimeiroNoFim | Codigo/Backend/avicheckpoint/src/main/java/com/avicheckpoint/repository/ProdutorRepositoryImpl.java:75-78 | after the upsert the first entry with the saved id is the appended one |
| UsuarioServico.MapearParaResponse | Codigo/Backend/avicheckpoint/src/main/java/com/avicheckpoint/service/UsuarioService.java:184-206 | copies id, name, email and creation date, the type from the profile, the address fields only when there is an address, and formação/bio/CRM only for a vet |
| UsuarioServico.AcrescentarMantemUnicos | Codigo/Backend/avicheckpoint/src/main/java/com/avicheckpoint/service/UsuarioService.java:41-43 | appending a user whose email matches no stored email, ignoring case, keeps the emails unique |
| UsuarioServico.ServicoUsuarios.CadastrarProdutor | Codigo/Backend/avicheckpoint/src/main/java/com/avicheckpoint/service/UsuarioService.java:39-62 | an email already among producers (ignoring case) throws and changes nothing; otherwise exactly one producer is appended with the next id, the encoded password and the address; the vet table is untouched; unique emails stay unique |
| UsuarioServico.ServicoUsuarios.CadastrarVeterinario | Codigo/Backend/avicheckpoint/src/main/java/com/avicheckpoint/service/UsuarioService.java:67-93 | the same against the vet table only, so a producer and a vet may share an email |
| UsuarioServico.ServicoUsuarios.BuscarPorEmail | Codigo/Backend/avicheckpoint/src/main/java/com/avicheckpoint/service/UsuarioService.java:124-134 | the producer match when there is one, the vet match only otherwise, none iff neither table has the email |
| UsuarioServico.ServicoUsuarios.AtualizarProdutor | Codigo/Backend/avicheckpoint/src/main/java/com/avicheckpoint/service/UsuarioService.java:139-165 | succeeds iff the id is known and the email is unchanged (case-sensitive test) or not present (case-insensitive test); an unknown id or a taken email throws and changes nothing; on success name, email, state and city are overwritten, the password is re-encoded only when not blank, the entry is upserted, and the vet table is untouched |
| UsuarioServico.TrocaDeCaixaRejeitada | Codigo/Backend/avicheckpoint/src/main/java/com/avicheckpoint/service/UsuarioService.java:144-147 | a case-only change of one's own email always finds the email taken, so the update is rejected |
| Analise.Regra | Codigo/Backend/avicheckpoint/src/main/java/com/avicheckpoint/service/AnaliseService.java:93-99 | a single-valued question adds exactly one statement, its table entry's, when the answer is a recognised literal, and nothing for any other answer or null |
| Analise.Regra2 | Codigo/Backend/avicheckpoint/src/main/java/com/avicheckpoint/service/AnaliseService.java:125-132 | a two-literal question yields the first literal's effect, the second's, or nothing |
| Analise.Regra3 | Codigo/Backend/avicheckpoint/src/main/java/com/avicheckpoint/service/AnaliseService.java:263-273 | a three-literal question yields the effect of the literal matched, or nothing |
| Analise.Pontuacao | Codigo/Backend/avicheckpoint/src/main/java/com/avicheckpoint/service/AnaliseService.java:193-199 | 10·fortes − 3·melhorias − 8·alertas clamped to [0, 100], negative totals included |
| Analise.Panorama | Codigo/Backend/avicheckpoint/src/main/java/com/avicheckpoint/service/AnaliseService.java:204-214 | the four bands >= 80, 60..79, 40..59 and < 40 each give their sentence, iff |
| Analise.Comentarios | Codigo/Backend/avicheckpoint/src/main/java/com/avicheckpoint/service/AnaliseService.java:219-233 | one fixed comment per profession present (iff), veterinarian first and physician last, at most three and no repeats |
| Analise.SecoesEmOrdem | Codigo/Backend/avicheckpoint/src/main/java/com/avicheckpoint/service/AnaliseService.java:55-64 | each list of the result is the saude, nutricao, avaliacao and doencas contributions concatenated in that order, and the set is their union |
| Analise.SecaoNulaNada | Codigo/Backend/avicheckpoint/src/main/java/com/avicheckpoint/service/AnaliseService.java:89-90 | a null or missing section contributes nothing |
| Analise.ConversaoFalha | Codigo/Backend/avicheckpoint/src/main/java/com/avicheckpoint/service/AnaliseService.java:45-79 | the analysis fails, with a cast error, exactly when some answer has the wrong JSON type |
| Analise.PontuacaoDoResultado | Codigo/Backend/avicheckpoint/src/main/java/com/avicheckpoint/service/AnaliseService.java:66-76 | the result's score is the clamped weighted count of its own lists, its panorama is the score's band and its comments are those of its profession set |
| Analise.SemAlteracoesVence | Codigo/Backend/avicheckpoint/src/main/java/com/avicheckpoint/service/AnaliseService.java:102-106 | "semAlteracoes" among the clinical signs gives exactly one strength and nothing else, whatever other tags are present |
| Analise.SinaisAlteradosAlertas | Codigo/Backend/avicheckpoint/src/main/java/com/avicheckpoint/service/AnaliseService.java:107-121 | otherwise one alert per recognised tag, no strength or improvement, and the veterinarian is always added, even for an empty list |
| Analise.SaudeProfissoes | Codigo/Backend/avicheckpoint/src/main/java/com/avicheckpoint/service/AnaliseService.java:85-150 | the health section recommends at most the veterinarian |
| Analise.NutricaoProfissoes | Codigo/Backend/avicheckpoint/src/main/java/com/avicheckpoint/service/AnaliseService.java:156-188 | the nutrition section recommends zootecnista and veterinarian iff the food is home-made or leftovers, and nobody otherwise |
| Analise.AvaliacaoProfissoes | Codigo/Backend/avicheckpoint/src/main/java/com/avicheckpoint/service/AnaliseService.java:239-283 | the egg-quality section recommends at most the veterinarian |
| Analise.GraveProfissoes | Codigo/Backend/avicheckpoint/src/main/java/com/avicheckpoint/service/AnaliseService.java:296-304 | a red-flag question recommends veterinarian and physician iff answered "sim" |
| Analise.DoencasProfissoes | Codigo/Backend/avicheckpoint/src/main/java/com/avicheckpoint/service/AnaliseService.java:289-351 | the disease section recommends veterinarian and physician iff one of the four red flags is "sim", and nobody otherwise |
| Analise.ProfissoesPorSecao | Codigo/Backend/avicheckpoint/src/main/java/com/avicheckpoint/service/AnaliseService.java:55-64 | the same four facts for the sections as read from the answers, a missing section included |
| Analise.ZootecnistaSeAlimentacaoCaseira | Codigo/Backend/avicheckpoint/src/main/java/com/avicheckpoint/service/AnaliseService.java:164-171 | "Zootecnista" is recommended iff the birds eat home-made food or leftovers |
| Analise.MedicoSeSinalGrave | Codigo/Backend/avicheckpoint/src/main/java/com/avicheckpoint/service/AnaliseService.java:297-350 | "Médico" is recommended iff a red-flag question is "sim", and never without the veterinarian |
| Analise.Acumulador.constructor | Codigo/Backend/avicheckpoint/src/main/java/com/avicheckpoint/service/AnaliseService.java:49-52 | three empty lists and an empty set |
| Analise.Acumulador.AnalisarSaude | Codigo/Backend/avicheckpoint/src/main/java/com/avicheckpoint/service/AnaliseService.java:85-150 | appends exactly the health section's contribution to the lists and adds its professions |
| Analise.Acumulador.SinaisDoenca | Codigo/Backend/avicheckpoint/src/main/java/com/avicheckpoint/service/AnaliseService.java:92-99 | appends the sinaisDoenca rule's effect |
| Analise.Acumulador.SinaisClinicosPresentes | Codigo/Backend/avicheckpoint/src/main/java/com/avicheckpoint/service/AnaliseService.java:101-123 | appends the clinical-signs contribution |
| Analise.Acumulador.SinaisAlterados | Codigo/Backend/avicheckpoint/src/main/java/com/avicheckpoint/service/AnaliseService.java:107-121 | the branch without "semAlteracoes": appends one alert per recognised tag and the veterinarian |
| Analise.Acumulador.Vacinacao | Codigo/Backend/avicheckpoint/src/main/java/com/avicheckpoint/service/AnaliseService.java:125-132 | appends the vaccination rule's effect |
| Analise.Acumulador.Quarentena | Codigo/Backend/avicheckpoint/src/main/java/com/avicheckpoint/service/AnaliseService.java:134-140 | appends the quarantine rule's effect |
| Analise.Acumulador.AvesSilvestres | Codigo/Backend/avicheckpoint/src/main/java/com/avicheckpoint/service/AnaliseService.java:142-149 | appends the wild-birds rule's effect |
| Analise.Acumulador.AnalisarSecoes | Codigo/Backend/avicheckpoint/src/main/java/com/avicheckpoint/service/AnaliseService.java:55-64 | the four section methods in order append the total contribution |
| Analise.Acumulador.AnalisarNutricao | Codigo/Backend/avicheckpoint/src/main/java/com/avicheckpoint/service/AnaliseService.java:156-188 | appends exactly the nutrition section's contribution |
| Analise.Acumulador.TipoAlimentacao | Codigo/Backend/avicheckpoint/src/main/java/com/avicheckpoint/service/AnaliseService.java:163-171 | appends the feed-type rule's effect |
| Analise.Acumulador.Armazenamento | Codigo/Backend/avicheckpoint/src/main/java/com/avicheckpoint/service/AnaliseService.java:173-179 | appends the storage rule's effect |
| Analise.Acumulador.FungosBolor | Codigo/Backend/avicheckpoint/src/main/java/com/avicheckpoint/service/AnaliseService.java:181-187 | appends the mould rule's effect |
| Analise.Acumulador.AnalisarAvaliacao | Codigo/Backend/avicheckpoint/src/main/java/com/avicheckpoint/service/AnaliseService.java:239-283 | appends exactly the egg-quality section's contribution |
| Analise.Acumulador.RegistrosZootecnicos | Codigo/Backend/avicheckpoint/src/main/java/com/avicheckpoint/service/AnaliseService.java:246-252 | appends the records rule's effect |
| Analise.Acumulador.Fotoperiodo | Codigo/Backend/avicheckpoint/src/main/java/com/avicheckpoint/service/AnaliseService.java:254-261 | appends the photoperiod rule's effect |
| Analise.Acumulador.QualidadeCasca | Codigo/Backend/avicheckpoint/src/main/java/com/avicheckpoint/service/AnaliseService.java:263-273 | appends the shell-quality rule's effect |
| Analise.Acumulador.LimpezaOvos | Codigo/Backend/avicheckpoint/src/main/java/com/avicheckpoint/service/AnaliseService.java:275-282 | appends the egg-cleanliness rule's effect |
| Analise.Acumulador.AnalisarDoencas | Codigo/Backend/avicheckpoint/src/main/java/com/avicheckpoint/service/AnaliseService.java:289-351 | appends exactly the disease section's contribution |
| Analise.Acumulador.SimGrave | Codigo/Backend/avicheckpoint/src/main/java/com/avicheckpoint/service/AnaliseService.java:296-304 | a red-flag question: "sim" appends its alert and both professions, "nao" its strength |
| Analise.Acumulador.SimLeve | Codigo/Backend/avicheckpoint/src/main/java/com/avicheckpoint/service/AnaliseService.java:306-312 | a yes/no disease question without professions: "sim" appends its alert, "nao" its strength |
| Analise.ProcessarAnalise | Codigo/Backend/avicheckpoint/src/main/java/com/avicheckpoint/service/AnaliseService.java:45-79 | the imperative engine returns exactly the table specification's result, or its cast failure |
| AnaliseServico.Analisado | Codigo/Backend/avicheckpoint/src/main/java/com/avicheckpoint/service/AnaliseService.java:34-39 | the analysed form is ANALISADO with the result attached, the same id, producer, answers and fill-in date, and a new update date |
| AnaliseServico.ServicoAnalise.AnalisarFormulario | Codigo/Backend/avicheckpoint/src/main/java/com/avicheckpoint/service/AnaliseService.java:25-40 | an unknown form, a status other than SUBMETIDO, null answers or a failed analysis throws and changes nothing; otherwise only that form is replaced by its analysed version |
| Historico.Pontuacoes | Codigo/Backend/avicheckpoint/src/main/java/com/avicheckpoint/service/HistoricoService.java:190-199 | the scores of exactly the forms with a result, in order: as many as those forms, the i-th being the score of the i-th of them; one per form when all have one |
| Historico.PontuacoesSoComResultado | Codigo/Backend/avicheckpoint/src/main/java/com/avicheckpoint/service/HistoricoService.java:155 | forms without a result contribute nothing: the scores of a list equal the scores of its forms that have a result |
| Historico.MediaEntre | Codigo/Backend/avicheckpoint/src/main/java/com/avicheckpoint/service/HistoricoService.java:190-194 | the mean of a non-empty list of scores within [lo, hi] lies within [lo, hi] |
| Historico.Tendencia | Codigo/Backend/avicheckpoint/src/main/java/com/avicheckpoint/service/HistoricoService.java:298-305 | "desconhecida" iff a score is null; else "crescente" iff p2 − p1 > 5, "decrescente" iff < −5, "estavel" iff within ±5 |
| Historico.Categoria | Codigo/Backend/avicheckpoint/src/main/java/com/avicheckpoint/service/HistoricoService.java:318-324 | "Não avaliado" iff null; else Excelente, Bom, Atenção, Crítico iff >= 80, 60..79, 40..59, < 40 |
| Historico.CategoriaAcompanhaPanorama | Codigo/Backend/avicheckpoint/src/main/java/com/avicheckpoint/service/HistoricoService.java:318-324 | the category of a score and the analysis panorama of that score pick the same band |
| Historico.PercentualMelhoria | Codigo/Backend/avicheckpoint/src/main/java/com/avicheckpoint/service/HistoricoService.java:310-313 | 0 when a score is null or p1 = 0; else r·p1 = (p2 − p1)·100 |
| Historico.PercentualExemplo | Codigo/Backend/avicheckpoint/src/main/java/com/avicheckpoint/service/HistoricoService.java:310-313 | 40 to 60 is 50 % and "crescente"; from 0 the percentage is 0 |
| Historico.MapearParaHistorico | Codigo/Backend/avicheckpoint/src/main/java/com/avicheckpoint/service/HistoricoService.java:261-282 | copies id, date and status, completo is completeness of the answers, and with a result copies score and panorama and counts strengths, improvements and comments (as totalAlertas); without one the counts are 0 |
| Historico.HistoricoCompleto | Codigo/Backend/avicheckpoint/src/main/java/com/avicheckpoint/service/HistoricoService.java:89-97 | one entry per ANALISADO form (as many as there are such forms, each one mapped), nothing else, newest first |
| Historico.ContagensSomadas | Codigo/Backend/avicheckpoint/src/main/java/com/avicheckpoint/service/HistoricoService.java:50-57 | the three status counts add up to the number of forms |
| Historico.AnalisadosRecentes | Codigo/Backend/avicheckpoint/src/main/java/com/avicheckpoint/service/HistoricoService.java:59-63 | exactly the ANALISADO forms with a result, newest first, no more than the ANALISADO count |
| Historico.Painel.constructor | Codigo/Backend/avicheckpoint/src/main/java/com/avicheckpoint/service/HistoricoService.java:46-57 | the DTO with producer, name and the three counts, every other field at its default |
| Historico.Painel.CalcularMetricasEvolutivas | Codigo/Backend/avicheckpoint/src/main/java/com/avicheckpoint/service/HistoricoService.java:187-215 | sets the mean, the newest score, the one before it and the trend as the metrics function says, nothing else |
| Historico.Painel.CalcularEstatisticasGerais | Codigo/Backend/avicheckpoint/src/main/java/com/avicheckpoint/service/HistoricoService.java:220-237 | sets the category and the three counts of the newest form, nothing else |
| Historico.Painel.ExtrairAlertasAtivos | Codigo/Backend/avicheckpoint/src/main/java/com/avicheckpoint/service/HistoricoService.java:242-256 | sets the active alerts and the critical flag from the newest form, nothing else |
| Historico.DashboardContagens | Codigo/Backend/avicheckpoint/src/main/java/com/avicheckpoint/service/HistoricoService.java:50-57 | total = number of forms, and analysed + drafts = total − submitted <= total |
| Historico.DashboardSemAnalisados | Codigo/Backend/avicheckpoint/src/main/java/com/avicheckpoint/service/HistoricoService.java:65-81 | the history is set iff there is an analysed form; without one no score, trend, mean, alerts or critical flag is set |
| Historico.DashboardHistorico | Codigo/Backend/avicheckpoint/src/main/java/com/avicheckpoint/service/HistoricoService.java:72-77 | the recent history has min(5, n) entries, all ANALISADO with a score, newest first |
| Historico.DashboardPontuacoes | Codigo/Backend/avicheckpoint/src/main/java/com/avicheckpoint/service/HistoricoService.java:187-215 | the last score is the newest, the trend compares the second newest to the newest ("primeiro" with one), and the mean of scores in [0, 100] is in [0, 100] |
| Historico.DashboardAlertas | Codigo/Backend/avicheckpoint/src/main/java/com/avicheckpoint/service/HistoricoService.java:242-256 | the active alerts are the newest analysed form's comments, the critical flag holds iff one mentions "crítico", "urgente" or "mortes" after lower-casing, and the category is that form's |
| Historico.DashboardCampos | Codigo/Backend/avicheckpoint/src/main/java/com/avicheckpoint/service/HistoricoService.java:65-81 | with analysed forms, history, newest score, trend and mean all come from the analysed list |
| Historico.CompararFormularios | Codigo/Backend/avicheckpoint/src/main/java/com/avicheckpoint/service/HistoricoService.java:102-127 | a missing id throws; the difference, improved flag and percentage are present iff both have results, and then are p2 − p1, p2 > p1 and the percentage |
| Historico.NoPeriodo | Codigo/Backend/avicheckpoint/src/main/java/com/avicheckpoint/service/HistoricoService.java:135-143 | exactly the ANALISADO forms with inicio <= date <= fim, oldest first |
| Historico.Evolucao | Codigo/Backend/avicheckpoint/src/main/java/com/avicheckpoint/service/HistoricoService.java:154-162 | one point per form with a result, in order: the i-th point carries the fill-in date and the score of the i-th such form |
| Historico.RelatorioTendencias | Codigo/Backend/avicheckpoint/src/main/java/com/avicheckpoint/service/HistoricoService.java:132-182 | total = period count; for a non-empty period the evolution is exactly the points of the period's forms with a result and the mean is the mean of their scores; an empty period has neither; a trend iff >= 2 points, from the first to the last |
| Historico.ServicoHistorico.GerarDashboard | Codigo/Backend/avicheckpoint/src/main/java/com/avicheckpoint/service/HistoricoService.java:34-84 | unknown producer throws; otherwise the dashboard specification of that producer's forms |
| Historico.ServicoHistorico.BuscarHistoricoCompleto | Codigo/Backend/avicheckpoint/src/main/java/com/avicheckpoint/service/HistoricoService.java:89-97 | the full history of the producer's forms |
| Historico.ServicoHistorico.GerarRelatorioTendencias | Codigo/Backend/avicheckpoint/src/main/java/com/avicheckpoint/service/HistoricoService.java:132-182 | the trend report of the producer's forms |
| Recomendacao.UltimaAnalise | Codigo/Backend/avicheckpoint/src/main/java/com/avicheckpoint/service/RecomendacaoService.java:54-57 | none iff no form has a result; otherwise a form with a result and the latest fill-in date, the first such in order (status not checked) |
| Recomendacao.Distancia | Codigo/Backend/avicheckpoint/src/main/java/com/avicheckpoint/service/RecomendacaoService.java:209-222 | throws exactly when both have addresses and the vet's city is null |
| Recomendacao.DistanciaFaixas | Codigo/Backend/avicheckpoint/src/main/java/com/avicheckpoint/service/RecomendacaoService.java:209-222 | the distance lies in [0, 80), is below 15 iff same city, and is at least 20 for different cities |
| Recomendacao.MesmaCidadeProxima | Codigo/Backend/avicheckpoint/src/main/java/com/avicheckpoint/service/RecomendacaoService.java:213-215 | a vet in the producer's city is always a proximity reason |
| Recomendacao.Compatibilidade | Codigo/Backend/avicheckpoint/src/main/java/com/avicheckpoint/service/RecomendacaoService.java:227-257 | 60 + 20·avian bio + 10·critical comment + 5·score below 50, hence within [60, 95] so the clamp never acts |
| Recomendacao.AvicolaAcimaDe80 | Codigo/Backend/avicheckpoint/src/main/java/com/avicheckpoint/service/RecomendacaoService.java:227-257 | compatibility >= 80 iff the bio mentions "avicultura" or "aves" |
| Recomendacao.PontuacaoEspecializacao | Codigo/Backend/avicheckpoint/src/main/java/com/avicheckpoint/service/RecomendacaoService.java:262-279 | within [40, 100], and above 50 iff a problem occurs in the bio or the bio is avian |
| Recomendacao.RepetidoContaDuasVezes | Codigo/Backend/avicheckpoint/src/main/java/com/avicheckpoint/service/RecomendacaoService.java:268-273 | a matching problem listed twice adds exactly 30 to the score, capped at 100: repeats count |
| Recomendacao.CalcularPontuacaoPorEspecializacao | Codigo/Backend/avicheckpoint/src/main/java/com/avicheckpoint/service/RecomendacaoService.java:262-279 | the counting loop returns the specialisation score, 40 + 15 per problem found in the bio + 20 for an avian bio, capped at 100 |
| Recomendacao.Motivos | Codigo/Backend/avicheckpoint/src/main/java/com/avicheckpoint/service/RecomendacaoService.java:284-305 | the reasons in the fixed order proximity, specialist, urgency, each at most once and only those: proximity iff distance <= 20, specialist iff the bio says "avicultura", urgency iff the score is below 50 |
| Recomendacao.MotivoDe | Codigo/Backend/avicheckpoint/src/main/java/com/avicheckpoint/service/RecomendacaoService.java:284-305 | "Profissional qualificado" with no reason; otherwise the reasons joined with ", " in that order, so every reason can be read in it |
| Recomendacao.GerarMotivoRecomendacao | Codigo/Backend/avicheckpoint/src/main/java/com/avicheckpoint/service/RecomendacaoService.java:284-305 | the list-building method returns that motive |
| Recomendacao.UrgenciaSeCompatibilidadeImpar | Codigo/Backend/avicheckpoint/src/main/java/com/avicheckpoint/service/RecomendacaoService.java:284-305 | urgency is a reason iff the compatibility is odd, since only the urgency bonus is odd |
| Recomendacao.EspecialistaTemBonus | Codigo/Backend/avicheckpoint/src/main/java/com/avicheckpoint/service/RecomendacaoService.java:284-305 | a specialist reason implies compatibility >= 80 |
| Recomendacao.EncontradasRotulos | Codigo/Backend/avicheckpoint/src/main/java/com/avicheckpoint/service/RecomendacaoService.java:310-328 | at most five labels, never the default; "Avicultura" iff the bio says "avicultura", "Medicina de Aves" iff it says "aves" |
| Recomendacao.EspecialidadesDePropriedades | Codigo/Backend/avicheckpoint/src/main/java/com/avicheckpoint/service/RecomendacaoService.java:310-328 | never empty; the default alone iff the bio is null or matches no keyword; otherwise the labels found |
| Recomendacao.ExtrairEspecialidades | Codigo/Backend/avicheckpoint/src/main/java/com/avicheckpoint/service/RecomendacaoService.java:310-328 | the method appending labels returns those specialties |
| Recomendacao.AvicolaTemEspecialidade | Codigo/Backend/avicheckpoint/src/main/java/com/avicheckpoint/service/RecomendacaoService.java:310-328 | an avian bio always yields an avian specialty |
| Recomendacao.ParaDTO | Codigo/Backend/avicheckpoint/src/main/java/com/avicheckpoint/service/RecomendacaoService.java:175-204 | id, bio and the non-empty specialties are copied; distance, compatibility, motive and availability are unset |
| Recomendacao.MapearVeterinarioParaDTO | Codigo/Backend/avicheckpoint/src/main/java/com/avicheckpoint/service/RecomendacaoService.java:175-204 | the setter sequence builds that record |
| Recomendacao.Recomendacao | Codigo/Backend/avicheckpoint/src/main/java/com/avicheckpoint/service/RecomendacaoService.java:126-147 | fails iff the distance throws; otherwise carries the distance, the compatibility and the motive of that vet |
| Recomendacao.CalcularRecomendacao | Codigo/Backend/avicheckpoint/src/main/java/com/avicheckpoint/service/RecomendacaoService.java:126-147 | the setter sequence builds that recommendation |
| Recomendacao.RecomendacaoPorProblemas | Codigo/Backend/avicheckpoint/src/main/java/com/avicheckpoint/service/RecomendacaoService.java:152-170 | fails iff the distance throws; otherwise carries the specialisation score and the motive naming the problems |
| Recomendacao.CalcularRecomendacaoPorProblemas | Codigo/Backend/avicheckpoint/src/main/java/com/avicheckpoint/service/RecomendacaoService.java:152-170 | the setter sequence builds that recommendation |
| Recomendacao.PorProblemasMantem | Codigo/Backend/avicheckpoint/src/main/java/com/avicheckpoint/service/RecomendacaoService.java:87 | a vet passes the > 50 threshold iff a problem occurs in its bio or its bio is avian |
| Recomendacao.MapearOuFalhar | Codigo/Backend/avicheckpoint/src/main/java/com/avicheckpoint/service/RecomendacaoService.java:63-64 | the mapped stream fails iff one mapping throws; otherwise it maps every vet in order |
| Recomendacao.RanquearPropriedades | Codigo/Backend/avicheckpoint/src/main/java/com/avicheckpoint/service/RecomendacaoService.java:65-69 | exactly min(limite, n) candidates, n being how many the filter keeps, all kept by the filter, compatibility descending then distance ascending, none cut ranked above one kept, full ties in input order |
| Recomendacao.RanquearOrdenada | Codigo/Backend/avicheckpoint/src/main/java/com/avicheckpoint/service/RecomendacaoService.java:66-69 | the ranking is ordered by its key |
| Recomendacao.NaRegiao | Codigo/Backend/avicheckpoint/src/main/java/com/avicheckpoint/service/RecomendacaoService.java:111-116 | holds iff the vet has an address whose city and state equal the query ignoring case; a null city, or a null state once the city matched, throws |
| Recomendacao.Selecionar | Codigo/Backend/avicheckpoint/src/main/java/com/avicheckpoint/service/RecomendacaoService.java:103-116 | fails iff a vet of the specialty has an address that throws; otherwise exactly the vets of the specialty and region, in stored order |
| Recomendacao.BuscarPorEspecialidadeComoEscrito | Codigo/Backend/avicheckpoint/src/main/java/com/avicheckpoint/service/RecomendacaoService.java:98-121 | as written, it never returns more than one vet |
| Recomendacao.EspecialidadeComoEscritoFalha | Codigo/Backend/avicheckpoint/src/main/java/com/avicheckpoint/service/RecomendacaoService.java:117-119 | with two or more matching vets the search as written throws, where the intended search lists them all |
| Recomendacao.BuscarPorEspecialidade | Codigo/Backend/avicheckpoint/src/main/java/com/avicheckpoint/service/RecomendacaoService.java:98-121 | fails iff the selection fails; otherwise every matching vet's record, in stored order |
| Recomendacao.ServicoRecomendacao.RecomendarVeterinarios | Codigo/Backend/avicheckpoint/src/main/java/com/avicheckpoint/service/RecomendacaoService.java:46-73 | the service returns the recommendation pipeline over the vet table |
| Recomendacao.ServicoRecomendacao.RecomendarVeterinariosPadrao | Codigo/Backend/avicheckpoint/src/main/java/com/avicheckpoint/service/RecomendacaoService.java:39-41 | the same with radius 100 km and limit 5 |
| Recomendacao.ServicoRecomendacao.RecomendadosPropriedades | Codigo/Backend/avicheckpoint/src/main/java/com/avicheckpoint/service/RecomendacaoService.java:46-73 | unknown producer throws, then a negative limit; otherwise exactly min(limite, n) vets, n being how many candidates lie within the radius, all within the radius, in ranking order |
| Recomendacao.ServicoRecomendacao.RecomendarPorProblemas | Codigo/Backend/avicheckpoint/src/main/java/com/avicheckpoint/service/RecomendacaoService.java:78-93 | the service returns the problem pipeline over the vet table |
| Recomendacao.ServicoRecomendacao.PorProblemasPropriedades | Codigo/Backend/avicheckpoint/src/main/java/com/avicheckpoint/service/RecomendacaoService.java:78-93 | unknown producer throws; otherwise exactly min(3, n) vets, n being how many candidates score above 50, all scoring above 50, in ranking order |
| Recomendacao.ServicoRecomendacao.BuscarPorEspecialidadeNaRegiao | Codigo/Backend/avicheckpoint/src/main/java/com/avicheckpoint/service/RecomendacaoService.java:98-121 | the intended search over the vet table; every record returned is that of a stored vet of the specialty and region |
| Frontend.ValidatePassword | Codigo/Frontend/script.js:348-356 | holds iff the password is present, is at least 8 UTF-16 code units long, and contains an upper-case letter, a lower-case letter and a character outside [A-Za-z0-9] |
| Frontend.UnidadesUtf16 | Codigo/Frontend/script.js:351 | the length in UTF-16 code units lies between the character count and twice it, and equals the character count when every character is in the Basic Multilingual Plane |
| Frontend.EmojiContaDuasUnidades | Codigo/Frontend/script.js:348-356 | "Aa!" followed by three emoji has six characters and is accepted, since its length is nine code units |
| Frontend.SenhaValidaNaoEmBranco | Codigo/Frontend/script.js:348-356 | an accepted password is never blank |
| Frontend.SenhaValidaTresClasses | Codigo/Frontend/script.js:348-356 | an accepted password has three pairwise distinct characters |
| Frontend.IndiceDe | Codigo/Frontend/script.js:337 | indexOf: −1 iff absent, otherwise the first position holding the tab |
| Frontend.AvancarChegaAoFim | Codigo/Frontend/script.js:344-346 | repeated next presses land on a valid index and, after enough presses, stay on the last tab |
| Frontend.Navegacao.constructor | Codigo/Frontend/script.js:305 | the first tab, prev disabled, next enabled |
| Frontend.Navegacao.UpdateNavButtons | Codigo/Frontend/script.js:336-339 | prev disabled iff index <= 0, next disabled iff index >= last; the tab is unchanged |
| Frontend.Navegacao.GoTo | Codigo/Frontend/script.js:330-334 | the tab becomes the one asked for and the buttons follow it |
| Frontend.Navegacao.Prev | Codigo/Frontend/script.js:341-343 | moves to max(0, i − 1), always a tab of the order, with the buttons updated |
| Frontend.Navegacao.Next | Codigo/Frontend/script.js:344-346 | moves to min(last, i + 1), always a tab of the order, with the buttons updated |
| Frontend.PrimeiroDe | Codigo/Frontend/script.js:667 | `profissao \|\| p`: a set profession is kept, otherwise the first one asked for |
| Frontend.S1 | Codigo/Frontend/script.js:662-672 | s1 "Sim" asks for the vet and adds the vet comment; nothing else touches profession or comments |
| Frontend.S2 | Codigo/Frontend/script.js:673-684 | a clinical sign other than "Sem alterações" asks for the vet and may add the investigation comment |
| Frontend.S3 | Codigo/Frontend/script.js:685-689 | s3 "Não" asks for the vet; comments unchanged |
| Frontend.S4 | Codigo/Frontend/script.js:690-692 | quarantine never touches profession or comments |
| Frontend.S5 | Codigo/Frontend/script.js:693-697 | s5 "Sim" asks for the vet; comments unchanged |
| Frontend.Saude | Codigo/Frontend/script.js:661-697 | the health block only writes the vet and investigation comments |
| Frontend.N1 | Codigo/Frontend/script.js:700-705 | home-made food or leftovers asks for Zootecnia; comments unchanged |
| Frontend.N2 | Codigo/Frontend/script.js:706-710 | storage never touches profession or comments |
| Frontend.N3 | Codigo/Frontend/script.js:711-713 | mould never touches profession or comments |
| Frontend.Nutricao | Codigo/Frontend/script.js:699-713 | the nutrition block writes no comment |
| Frontend.A1 | Codigo/Frontend/script.js:716-718 | records never touch profession or comments |
| Frontend.A2 | Codigo/Frontend/script.js:719-723 | a2 "Não" asks for the vet; comments unchanged |
| Frontend.A3 | Codigo/Frontend/script.js:724-737 | a cracked or rough shell asks for the vet; comments unchanged |
| Frontend.A4 | Codigo/Frontend/script.js:738-743 | cleanliness never touches profession or comments |
| Frontend.A5 | Codigo/Frontend/script.js:744-745 | the yolk colour never touches profession or comments |
| Frontend.Avaliacao | Codigo/Frontend/script.js:715-745 | the egg-quality block writes no comment |
| Frontend.Doencas | Codigo/Frontend/script.js:747-757 | one or more red flags ask for the vet and add the vet comment once |
| Frontend.Fechar | Codigo/Frontend/script.js:759-764 | the closing comments leave the profession unchanged |
| Frontend.BuildFindingsFromAnswers | Codigo/Frontend/script.js:652-767 | the push-based procedure returns the report the block functions specify |
| Frontend.SaudeNoRelatorio | Codigo/Frontend/script.js:661-697 | the health pushes produce the health block's report |
| Frontend.NutricaoNoRelatorio | Codigo/Frontend/script.js:699-713 | the nutrition pushes produce the nutrition block's report |
| Frontend.AvaliacaoNoRelatorio | Codigo/Frontend/script.js:715-745 | the egg-quality pushes produce that block's report |
| Frontend.DoencasNoRelatorio | Codigo/Frontend/script.js:747-757 | the red-flag count and pushes produce the disease block's report |
| Frontend.SaudeProfissao | Codigo/Frontend/script.js:661-697 | after the health block the profession is the first one its questions asked for |
| Frontend.AvaliacaoProfissao | Codigo/Frontend/script.js:715-745 | likewise for the egg-quality block |
| Frontend.ProfissaoPrimeiroPedido | Codigo/Frontend/script.js:662-757 | first write wins: the final profession is the first one any question asked for, null when none did |
| Frontend.ProfissaoValores | Codigo/Frontend/script.js:662-757 | the profession is only ever null, "Medicina veterinária" or "Zootecnia" |
| Frontend.ZootecniaQuando | Codigo/Frontend/script.js:702-705 | Zootecnia is chosen iff the food is home-made or leftovers and no health answer asked for the vet first |
| Frontend.ApurarComentarios | Codigo/Frontend/script.js:661-757 | before the closing lines the only comments are the vet and investigation ones |
| Frontend.ComentariosFinais | Codigo/Frontend/script.js:759-764 | the zootecnista comment appears iff the profession is Zootecnia, and the "Medicina" comment never appears |
| Frontend.SinaisDeAlertaUmaVez | Codigo/Frontend/script.js:747-757 | one or more "Sim" among d1..d7 adds exactly one panorama line and one comment; none adds nothing; strengths and improvements never change |
| Frontend.OpcoesExatas | Codigo/Frontend/script.js:662-745 | answers other than the named options, and "Sem alterações" for s2, add nothing |
| Frontend.UfDoProdutor | Codigo/Frontend/script.js:410-411 | the producer's UF is the first truthy of the form field and the stored value, else null |
| Frontend.FilterProfessionalsSuggestion | Codigo/Frontend/script.js:408-419 | exactly the first min(5, n) of the n stored professionals that are of the producer's UF when known and contain the formação ignoring case when given, in stored order |

## Left out

- Spring controllers, HTTP routing, exception-to-status mapping, Bean Validation and the DTO classes' getters and setters are not modelled; the DTOs are datatypes with the fields the core reads.
- JSON file I/O, ObjectMapper, directories and swallowed IOExceptions become map and sequence fields; a read that fails is not modelled.
- `LocalDateTime.now()` and date formatting are the `Relogio` parameter (an integer instant and the formatted stamp); dates are integers.
- `Math.random` in the simulated distance is the `sorteio` parameter; the simulated experience, rating and review count (RecomendacaoService.java:333-349) are not modelled, since they are random and feed no rule.
- BCrypt is the uninterpreted `codificar` parameter.
- `double` values (mean, percentage, radius, distance) are reals; rounding is not modelled.
- `toLowerCase`, `toUpperCase` and `equalsIgnoreCase` are modelled on ASCII and Latin-1 letters only.
- The service wrappers that only delegate to a repository (`buscarFormularioPorId`, `buscarFormulariosPorProdutor`, `buscarFormulariosPorStatus`, `excluirFormulario`, `buscarProdutorPorId`, `buscarVeterinarioPorId`, `buscarVeterinariosParaRecomendacao`, `excluirProdutor`, `excluirVeterinario`) have no member of their own; the repository members they call are modelled.
- The model class `ResultadoAnalise.java` declares `panorama` as a list and lacks setters the service calls; the model follows `AnaliseService`, with one panorama sentence, a score and a profession set, and the history's `getPanorama().get(0)` reads that sentence.
- The DOM, localStorage and event wiring of `script.js` (`makeControl`, `render*`, `saveProducer`, `saveProfessional`, `boot`, the rating widget) are not modelled; the stored professionals and UF are parameters.
- Concurrency: the source has none to model.
- Historico.NoPeriodo: a form without a fill-in date is treated as date 0 instead of throwing; the repository always sets that date.
- Historico.AnalisadosRecentes: likewise, a missing date sorts as 0 instead of throwing.
- RepositorioFormulario.RepositorioFormularios.BuscarPorProdutor: a form without a fill-in date sorts as date 0, where the comparator would throw; the repository invariant gives every stored form a date, so this case is never reached.
- Historico.HistoricoCompleto: a form without a fill-in date sorts as date 0, where the comparator would throw; the stored forms always have a date.
- Historico.Evolucao: a form without a fill-in date gets the point date 0, where formatting the date would throw; the stored forms always have a date.
- Historico.RelatorioTendencias: inherits the date-0 reading of Historico.NoPeriodo and Historico.Evolucao for a form without a fill-in date.
- Recomendacao.UltimaAnalise: a form without a fill-in date compares as date 0, where the comparator would throw; the stored forms always have a date.
- Usuarios.RepositorioUsuarios.GerarProximoId: ids are unbounded integers; with Java's int the id after 2147483647 wraps to a negative number, so "greater than every stored id" holds only below that value.
- UsuarioServico.ServicoUsuarios.AtualizarProdutor: the request password is a string, so the null password is folded into the blank one; both keep the stored hash, as in the source.
- Recomendacao.Distancia: the distance is the simulated formula on the `sorteio` draw, not a geographic distance; only its bands are stated.

## Findings

| source | as written | input that shows it | evidently intended | confidence | as-written member | corrected member |
|---|---|---|---|---|---|---|
| Codigo/Backend/avicheckpoint/src/main/java/com/avicheckpoint/service/RecomendacaoService.java:117-119 | `buscarPorEspecialidade` sorts the records from `mapearVeterinarioParaDTO` by `pontuacaoCompatibilidade` with `Comparator.reverseOrder()`, but that field is never set, so comparing two records dereferences null | two stored vets whose bio mentions "aves", both in the queried city and state | list every matching vet (the sort key being equal for all, in stored order) | not executed | Recomendacao.BuscarPorEspecialidadeComoEscrito (shown by Recomendacao.EspecialidadeComoEscritoFalha) | Recomendacao.BuscarPorEspecialidade |

# monitoramente-nfe in Dafny

A model of the core of **monitoramente-nfe**, a Node.js service that watches the
SEFAZ-MG tax authority and caches NF-e invoice lookups. It covers:

- **The status monitor** (`SefazMonitor.Monitor`). The singleton keeps `lastStatus`,
  `simulatedStatus` and the interval handle.
  - It probes the status service through the axios retry interceptor (`HttpRetry.Send`).
  - It decides "online" from the reply.
  - It appends a row to `sefaz_status` only when the status changed, and it swallows
    failures.
  - It also holds the simulated-status toggle and the history, current-status and
    rejected-invoice queries.
- **The store** (`Persistence.Database`). It holds the two MySQL tables:
  - a status log kept in insertion order;
  - the `nfes` table as a map keyed by its unique `chave` column.

  Each statement is given an outcome (`Up` or `Down(message)`). NOT NULL columns
  refuse null. mysql2 refuses undefined binds.
- **The invoice service** (`NfeService.Service`). It covers:
  - access-key validation;
  - the cache-then-remote lookup;
  - field extraction from a JSON payload, by ordered alias lists;
  - field extraction from the parsed tree of an NF-e document: layout 4.00 of the
    *Manual de Orientação do Contribuinte*, with `infNFe` and its `Id` attribute,
    `ide`, `emit`, `dest` and `total/ICMSTot/vNF`;
  - the `ON DUPLICATE KEY UPDATE` upsert;
  - the XML export and its fallback.
- **The two controllers** (`MonitorController`, `NfeController`). Each handler is
  modelled as a method call on the exported controller object, so `this` is that
  object. They cover:
  - query-parameter parsing with `parseInt` and `||` defaults;
  - page options and page arithmetic;
  - the status code each handler picks;
  - the response shapes.
- **The browser page's helpers** (`ClientApp`). They cover:
  - the access-key sanitiser and the form's key check;
  - the access-key and CNPJ display formats;
  - the status badge mapping;
  - the page's status history of at most 20 entries (`ClientApp.StatusPanel`), which
    a failed check falls back on.

JavaScript semantics are written out in `Js`:
- values, truthiness, `||`, `?.`;
- property reads that throw on null or undefined;
- strict equality;
- `parseInt` as a decimal digit-prefix parser, giving exact integers;
- numbers that may be `NaN` or `Infinity` after a division.

Things the code does that a reader might not expect, all modelled as written:
- `online` is the raw value of the `&&`/`||` expression, not a boolean. A reply with
  status 200 and an empty-string payload yields `''`.
- The change check compares that raw value with `!==`. So an object-valued `data.online`
  is a "change" on every probe.
- The retry interceptor also retries 4xx and 5xx replies, because axios rejects every
  non-2xx status.
- `requisitarSefaz` sets `lastStatus = false` before it writes the offline row.
  `registrarMudancaStatus` is fired without waiting for it.
- `iniciarMonitoramento` called twice leaves the first timer running
  (`SefazMonitor.RestartLeaksTimer`).
- The upsert is keyed by the payload-derived `chave`, not by the key that was asked
  for.
- Payload data that binds `undefined` makes the upsert fail. Example: an XML without
  `ide.nNF`.
- `gerarArquivoXml` for a row stored without XML calls `consultarNfe`. That call is a
  cache hit, which carries no `xml`, so the export is `undefined`. Called on the
  controller object, the handler then answers 404.
- Called on the controller object, the rejected-invoice listing answers 200 with an
  empty page whenever the service throws. The plain listing reports `pages = 0` for an
  empty table, because it has no fallback.
- A negative or `NaN` LIMIT or OFFSET makes MySQL refuse the statement.

## Model

| member | source | states |
|---|---|---|
| HttpRetry.Send | src/sefazMonitorService.js:42-63 | A request is re-issued at most `maxRetries` times (none when it is absent or not positive). Retry k+1 waits `retryDelay·2^k`. Every retried try was rejected. A rejection reaches the caller only once the budget is spent. |
| HttpRetry.DefaultSchedule | src/sefazMonitorService.js:35-36 | The monitor's config allows 3 retries, waiting 1000, 2000 and 4000 ms. A request that fails every time is retried exactly 3 times. |
| HttpRetry.RetriesUsedBounds | src/sefazMonitorService.js:50-56 | The retry counter never passes the budget. Every try before the final one was rejected. |
| HttpRetry.NoBudgetNoRetry | src/sefazMonitorService.js:46-48 | A config without a positive `maxRetries` is rejected at once with the first try's outcome. |
| Persistence.Database.constructor | database/init.js:11-48 | Both tables start empty and the invariants hold. The invariants are ids and timestamps that grow along the log, and each row stored under its own unique `chave`. |
| Persistence.Database.InsertStatus | database/init.js:39-48 | The insert appends exactly one row carrying the given `online` and `detalhes`. It fails when the store fails or `online` is null or undefined. On failure the log is unchanged. |
| Persistence.UpsertError | src/nfeService.js:196-211 | The upsert is refused exactly when the store fails or one of the eight NOT NULL text values is null or undefined. |
| Persistence.UpsertedSpec | src/nfeService.js:176-208 | Only the row under the payload's `chave` changes. It keeps its id and its three rejection columns, and every bound column is replaced. `data_consulta` is refreshed. Falsy XML is stored as null. A new row gets a fresh id and null rejection columns. |
| Persistence.UpsertedTwice | src/nfeService.js:176-208 | Upserting the same data twice leaves the table as one upsert at the later time does. |
| Persistence.Database.UpsertNfe | src/nfeService.js:175-211 | Succeeds exactly when `UpsertError` reports nothing, and then the table is the upserted table. On failure the table is unchanged. |
| Persistence.Database.SelectNewestFirst | src/sefazMonitorService.js:295-304 | The loop yields the selected rows (all, or only `REJEITADA`), each once, newest `data_consulta` first. Every selected row is there. |
| Persistence.SummaryKeepsAllButXml | src/nfeController.js:56 | Dropping `xml_conteudo` loses that column and nothing else. |
| SefazMonitor.StatusUrl | src/sefazMonitorService.js:16-20 | The URL is the local simulation in development. Otherwise it is `SEFAZ_MG_STATUS_URL`, or the `nfeStatusServico` endpoint when that is unset. |
| SefazMonitor.CheckInterval | src/sefazMonitorService.js:22 | The interval is the parsed variable when that is a non-zero integer, else 300000 ms. It is never 0. |
| SefazMonitor.CheckIntervalOfDecimal | src/sefazMonitorService.js:22 | A positive interval written in decimal is the interval used. |
| SefazMonitor.OnlineValueMeans | src/sefazMonitorService.js:96-97 | A probe is online iff the status is 200, the payload is truthy, and `data.online` is truthy or `data.status === 'online'`. |
| SefazMonitor.ProbeStepLogsChangesOnly | src/sefazMonitorService.js:103-112 | A probe logs a row only when `lastStatus` is null or differs from the new value, and `lastStatus` becomes the logged value. Without a row, `lastStatus` is unchanged. |
| SefazMonitor.ProbeStepCatchesFailures | src/sefazMonitorService.js:119-141 | A failed request is caught and reported with its message. It logs offline iff `lastStatus !== false` and the insert succeeds. A failed insert leaves `lastStatus` unchanged. |
| SefazMonitor.LoggedIsCoalesced | src/sefazMonitorService.js:103-131 | Over any run of probes, consecutive logged rows differ, and the first differs from the status held at the start. No logged row is null or undefined. |
| SefazMonitor.LastAfterIsLastLogged | src/sefazMonitorService.js:103-131 | After any run of probes, `lastStatus` equals the last row logged, or the initial status when nothing was logged. |
| SefazMonitor.Monitor.constructor | src/sefazMonitorService.js:5-40 | The URL and interval come from the environment. There is no timer, `lastStatus` is null and `simulatedStatus` is true. |
| SefazMonitor.Monitor.VerificarStatusSefaz | src/sefazMonitorService.js:85-147 | The new `lastStatus` and the appended row, if any, are those of `ProbeStep` for the final retry outcome. The result is `{online, detalhes}` or `{online: false, error}`, and the method never throws. The "lastStatus is the newest row's online" invariant is preserved, and the `nfes` table is untouched. |
| SefazMonitor.Monitor.ProbeSettled | src/sefazMonitorService.js:96-141 | Once the request has settled, the new `lastStatus`, the appended row and the result are exactly those `ProbeStep` gives for that outcome. |
| SefazMonitor.Monitor.LogIfChanged | src/sefazMonitorService.js:103-112 | A row is inserted and `lastStatus` set only when the status changed. The error is the insert's error, or none when nothing changed. |
| SefazMonitor.Monitor.LogOffline | src/sefazMonitorService.js:122-135 | An offline row with the `Erro ao verificar: ` detail is logged unless `lastStatus` is already `false`. A failed insert changes nothing and is swallowed. |
| SefazMonitor.Monitor.LogStatus | src/sefazMonitorService.js:106-111 | The insert's error is `InsertError`. On success the row is appended and `lastStatus` becomes its `online`, which keeps `Tracks`. |
| SefazMonitor.Monitor.IniciarMonitoramento | src/sefazMonitorService.js:66-74 | Probes once with the effect `ProbeStep` gives: the new `lastStatus` and the row it appends, if any. Then it starts a new timer, keeps its handle and returns true. The `nfes` table and the simulated status are untouched. |
| SefazMonitor.Monitor.PararMonitoramento | src/sefazMonitorService.js:76-83 | Always returns true and leaves no handle. It stops the held timer if there is one and touches nothing else. |
| SefazMonitor.RestartLeaksTimer | src/sefazMonitorService.js:66-83 | Start, start, stop leaves one more timer running than before. |
| SefazMonitor.Monitor.RegistrarMudancaStatus | src/sefazMonitorService.js:206-233 | Appends the status with no change check. Returns true iff the insert succeeds, and only then sets `lastStatus`. |
| SefazMonitor.Monitor.ToggleSimulatedStatus | src/sefazMonitorService.js:188-192 | Returns and stores the negated simulated status. It logs it as simulated when the write succeeds. The timers and the `nfes` table are untouched. |
| SefazMonitor.ToggleTwice | src/sefazMonitorService.js:188-192 | Two toggles restore the simulated status and log two rows, the first with the negated value. |
| SefazMonitor.Monitor.GetSimulatedStatus | src/sefazMonitorService.js:194-204 | The simulated status and the message that matches it. |
| SefazMonitor.ProbeOfSimulatedStatus | src/sefazMonitorService.js:194-204 | In development, probing the simulated endpoint reads back exactly the simulated status. |
| SefazMonitor.BuildRequest | src/sefazMonitorService.js:151-161 | A known endpoint name resolves to its URL, and any other string is the URL itself. The body is attached iff `data` is truthy. |
| SefazMonitor.Monitor.RequisitarSefaz | src/sefazMonitorService.js:149-186 | Reports success with the reply, or failure with the error and response. Only a failed request to the status endpoint sets `lastStatus` to false, which happens even when the row write fails, and appends a false row with no change check. The timers, the simulated status and the `nfes` table are untouched. |
| SefazMonitor.NewestStatusSpec | src/sefazMonitorService.js:240-246 | The history holds the `limit` newest rows, newest first. Every row left out is no newer than those kept. |
| SefazMonitor.Monitor.ObterHistoricoStatus | src/sefazMonitorService.js:235-257 | Returns at most `limit` rows, newest timestamp first. A failed read or a negative limit is rethrown. |
| SefazMonitor.Monitor.ObterStatusAtual | src/sefazMonitorService.js:259-288 | Returns the newest row with `online` as a boolean and changes nothing. On an empty log it returns the probe's result, with the row and `lastStatus` that `ProbeStep` gives. A failed read is rethrown. The timers and the simulated status are untouched. |
| SefazMonitor.Window | src/sefazMonitorService.js:302-303 | `LIMIT limit OFFSET offset` keeps the elements from `offset` on, at most `limit` of them, in order. |
| SefazMonitor.NewestFirstWindow | src/sefazMonitorService.js:295-304 | A page cut from a newest-first selection holds selected table rows, each at most once, newest query first. Its length is the window over the selected count. |
| SefazMonitor.Monitor.ObterNfesRejeitadas | src/sefazMonitorService.js:290-324 | Returns the page `LIMIT limit OFFSET offset` cuts from the `REJEITADA` rows listed newest query first, each once, and their count. The page number is `floor(offset/limit)+1` and the page count `ceil(total/limit)`. A failure of either statement is rethrown. |
| NfeService.ValidarChaveAcesso | src/nfeService.js:52-54 | True iff the key is exactly 44 ASCII digits. |
| NfeService.ConverterDropsOnlyIdAndXml | src/nfeService.js:89-106 | The conversion maps column to field one for one and drops only `id` and `xml_conteudo`. |
| NfeService.FormatarRespostaErro | src/nfeService.js:268-274 | Builds a failure carrying the message, or "Erro na consulta" when it is empty. The details are `response.data` when truthy, else "Sem detalhes adicionais". |
| NfeService.AliasIndex | src/nfeService.js:156-164 | Gives the first alias whose field is truthy. Every alias before it is falsy. |
| NfeService.FirstTruthyOfOne | src/nfeService.js:156 | `data.a || fallback` takes `data.a` when truthy, else the fallback. |
| NfeService.FirstTruthyOfTwo | src/nfeService.js:156 | Of `data.a`, `data.b` and `fallback` chained with `or`, the first truthy alias in the order written is taken. |
| NfeService.JsonRoot | src/nfeService.js:153 | The fields are read from `nfe` if truthy, else from `dados` if truthy, else from the payload itself. |
| NfeService.ExtrairDadosNfeDoJson | src/nfeService.js:152-167 | Throws exactly on a null or undefined payload. Status defaults to `PROCESSADA`, the emission date to now, and the total to `parseFloat` of `valorTotal`, or of 0 when that is falsy. |
| NfeService.JsonAliases | src/nfeService.js:156-164 | Each field is the first truthy of its names in the order written, else ''. `numero` and `serie` have one name each, and five fields have two. |
| NfeService.JsonDataBindsNoNull | src/nfeService.js:155-166 | Data extracted from JSON never binds null or undefined, so its upsert fails only when the store does. |
| NfeService.IndexOf | src/nfeService.js:130 | Finds the first occurrence of the pattern, if there is one. |
| NfeService.KeyOfId | src/nfeService.js:130 | An `Id` laid out as `NFe` followed by the key gives the key back. |
| NfeService.ProcessarXmlNfe | src/nfeService.js:113-145 | Every failure carries the prefix `Falha ao processar XML: `, including a missing `infNFe` and a parser error. On success the status is `PROCESSADA`, the recipient is `CNPJ` else `CPF` else '', and the total is `vNF` or 0. `chave` is `Id` without its first `NFe`, or '' when `Id` is falsy. |
| NfeService.FromPayload | src/nfeService.js:70-78 | A truthy `data.xml` is parsed, and any other payload goes through the JSON extraction. The XML kept is `data.xml`, or '' when that is falsy. A null payload throws. |
| NfeService.Service.BuscarNfePorChave | src/nfeService.js:224-236 | Returns exactly the row stored under the key, or none. A failed read is rethrown with both prefixes. |
| NfeService.Service.SalvarNfeNoBanco | src/nfeService.js:175-217 | The upsert succeeds exactly when `UpsertError` reports nothing. Otherwise it is rethrown with both prefixes and the table is unchanged. |
| NfeService.Service.ConsultarNfeNaApi | src/nfeService.js:61-82 | On a failed request it throws "Erro na consulta à API da SEFAZ", or the request's own message. Otherwise it extracts the data and performs exactly one upsert, then returns the data and the XML. Every failure leaves the table unchanged. Outside a failed status request, the status log and `lastStatus` are untouched. |
| NfeService.Service.ConsultarNfe | src/nfeService.js:21-45 | An invalid key fails before any read. A cache hit returns the converted row and writes nothing. A miss returns `FromApi` with exactly the remote branch's data and XML when that branch succeeds. Otherwise it returns its error, formatted, never thrown. |
| NfeService.Service.XmlFromConsulta | src/nfeService.js:247-253 | A failed lookup is rethrown as `Falha ao gerar XML: Não foi possível consultar a NFe: ` and its error, for an invalid key, a failed read or a failed remote branch. A stored row yields `undefined`. A remote success yields its XML. |
| NfeService.Service.GerarArquivoXml | src/nfeService.js:243-261 | Returns the stored XML when it is truthy. Otherwise it returns the fallback's result: `undefined` for a row stored without XML, the remote XML for a missing row, or the fallback's error. Every failure carries the `Falha ao gerar XML: ` prefix. |
| MonitorController.EnviarRespostaSucesso | src/sefazMonitorController.js:156-161 | Status 200 with `success: true` and the payload. |
| MonitorController.EnviarRespostaErro | src/sefazMonitorController.js:169-175 | Status 500 with `success: false`, `error` and `details`. |
| MonitorController.EnviarRespostaStatusSeguro | src/sefazMonitorController.js:183-188 | The same response as the success shape, whatever the data says. |
| MonitorController.IntOr | src/sefazMonitorController.js:207-208 | `parseInt(v)` with `d` as fallback: the parsed value unless it is NaN or 0. |
| MonitorController.CriarOpcoesPaginacao | src/sefazMonitorController.js:206-214 | `offset = (page−1)·limit`. An unparsable or zero page becomes 1, and an unparsable or zero limit becomes 10. With page ≥ 1 and limit > 0, `floor(offset/limit)+1` gives the page back. |
| MonitorController.PageOfOffset | src/sefazMonitorService.js:313 | For page ≥ 1 and limit ≥ 1, the service's `floor(offset/limit)+1` recovers the page. |
| MonitorController.DecimalPageOptions | src/sefazMonitorController.js:206-214 | A page and a limit written in decimal give `(limit, (page−1)·limit)`. |
| MonitorController.PageNumbers | src/sefazMonitorController.js:126-129 | `pagina` and `totalPaginas`, each with 1 as fallback, are at least 1. No rows give 1 page. |
| MonitorController.ValidarLimite | src/sefazMonitorController.js:195-198 | The parsed integer, or 20 when parsing fails. |
| MonitorController.SafeListing | src/sefazMonitorController.js:136-145 | The fallback page has empty data, page 1, total 0, pages 1 and an error text. Its limit is `parseInt` of the query limit, or 10 when that is absent or empty. |
| MonitorController.ObterHistoricoStatus | src/sefazMonitorController.js:53-65 | 200 with at most `limit` rows, newest first (default 20). Otherwise 500 with the service's error. |
| MonitorController.ListarNfesRejeitadas | src/sefazMonitorController.js:110-147 | Always 200 with `success: true`, and page and pages never below 1. The listing carries the service's page iff both reads succeed and the options are valid: the window of the rejected rows listed newest first, and their count. Otherwise it is the fallback page. |
| MonitorController.ListarPaginaRejeitadas | src/sefazMonitorController.js:114-146 | Always 200 with `success: true`, and page and pages never below 1. With both reads up and valid options, the service's page is sent as the window of the rejected rows listed newest first, with their count. Otherwise the fallback page is sent. |
| MonitorController.RejectedListingOfPage | src/sefazMonitorController.js:114-132 | The page the service built from the rejected rows is sent as the window of those rows, with the service's count and page numbers. |
| MonitorController.RejectedListing | src/sefazMonitorController.js:123-132 | With a positive limit, the page sent is the one the offset lies on. The page count is `ceil(total/limit)`, or 1 when that is 0, and the rows are those of the service. |
| NfeController.EnviarRespostaErro | src/nfeController.js:163-169 | `{success: false, error, details}` with the given status. `details` defaults to null. |
| NfeController.EnviarArquivoXml | src/nfeController.js:150-154 | Sends the XML as an `application/xml` attachment named `nfe-<chave>.xml`. |
| NfeController.XmlFileName | src/nfeController.js:152 | The file name is `nfe-`, the key, then `.xml`. |
| NfeController.ConsultarNfe | src/nfeController.js:16-40 | 400 for an empty key before the service is asked. Otherwise 200 iff the service succeeded, else 400. |
| NfeController.ObterDetalhesNfe | src/nfeController.js:47-63 | 404 for a missing row and 500 for a failed read. Otherwise 200 with the row minus `xml_conteudo`, all other fields unchanged. |
| NfeController.ObterXmlNfe | src/nfeController.js:70-84 | 500 with the export's error when the export throws, and 404 for falsy XML. Otherwise the attachment. A row stored without XML gives 404. A missing row gives the remote XML, or 500 with the remote error. |
| NfeController.ListarNfes | src/nfeController.js:126-201 | Returns the window of the table from `offset = (page−1)·limit`, listed newest first, each row once. `page` is echoed back and `pages = ceil(total/limit)` with no fallback. A NaN or negative bound, or a failed statement, gives 500 with the `Falha na consulta SQL: ` prefix. |
| NfeController.SelectPage | src/nfeController.js:181-188 | The statement gives the `LIMIT`/`OFFSET` window of the table listed newest `data_consulta` first, each row once. Each row is sent without its rejection and XML columns. |
| NfeController.PageCount | src/nfeController.js:198 | With a positive limit, `ceil(total/limit)` pages hold all rows and none is empty. No rows give 0 pages. |
| NfeController.AllRowsSelected | src/nfeController.js:189-190 | `COUNT(*)` over the table counts every row. |
| ClientApp.Sanitize | public/js/app.js:55 | Keeps at most 44 digits, only digits, taken in order from the digits of the input. It truncates only at 44. |
| ClientApp.KeepDigitsAppend | public/js/app.js:55 | Removing non-digits works piece by piece, so the digits keep their order. |
| ClientApp.SanitizeIdempotent | public/js/app.js:55 | Sanitising a sanitised input changes nothing. |
| ClientApp.SanitizedKeyAccepted | public/js/app.js:275-277 | A sanitised input passes the form's 44-digit check iff the typed text had at least 44 digits. |
| ClientApp.Group4IsSpaced | public/js/app.js:559 | On text without white space, the `/(.{4})/g` replacement puts a space after each block of four. It leaves a trailing space only when the length is a positive multiple of 4. |
| ClientApp.FullFormatIsSpaced | public/js/app.js:559 | After `trim`, the full format is the key in blocks of four separated by single spaces. |
| ClientApp.SpacedRoundTrip | public/js/app.js:559 | Removing the spaces gives the input back. The length is `n + (n−1)/4`. |
| ClientApp.AccessKeyFormats | public/js/app.js:554-560 | A 44-digit key shows as 54 characters in full, and removing the spaces gives it back. Abbreviated, it is the first 11 + '...' + the last 11. |
| ClientApp.FormatarCnpj | public/js/app.js:562-565 | A falsy value gives 'N/A' and a string is masked. Any other truthy value throws. A string that is not 14 digits is unchanged. |
| ClientApp.CnpjRoundTrip | public/js/app.js:564 | 14 digits show as XX.XXX.XXX/XXXX-XX, and removing the punctuation gives them back. |
| ClientApp.StatusClass | public/js/app.js:567-577 | `aprovada` iff PROCESSADA or AUTORIZADA, `rejeitada` iff REJEITADA, else `processando`. |
| ClientApp.StatusLabel | public/js/app.js:579-589 | The label is the class capitalised. |
| ClientApp.CheckedOnline | public/js/app.js:107-127 | A check yields a value iff the response is ok and its body is non-null with `online` present or a truthy `success`. The value is `Boolean(data.online)`. Anything else is an error. |
| ClientApp.ServerHistory | public/js/app.js:637-656 | A server history is used iff the response is ok, `success` is truthy and `data` is a non-empty array with no null row. It is those rows in server order, mapped to 'online'/'offline'. |
| ClientApp.StatusPanel.constructor | public/js/app.js:618-629 | The page starts from the saved history. |
| ClientApp.StatusPanel.LastKnownStatus | public/js/app.js:158-165 | The newest entry's `status === 'online'`, or true when there is none. |
| ClientApp.StatusPanel.AdicionarEntradaHistorico | public/js/app.js:230-241 | The entry goes to index 0, the old entries shift by one, and the length is capped at 20. |
| ClientApp.StatusPanel.AtualizarHistoricoStatus | public/js/app.js:631-673 | A server history replaces the page's, capped at 20. Otherwise the page's history stays unchanged. |
| ClientApp.StatusPanel.VerificarStatusSefaz | public/js/app.js:87-167 | A good answer is returned, logged and followed by a history refresh. A failed check changes nothing and returns the last known status. |
| ClientApp.CheckThenFail | public/js/app.js:141-165 | A failed check right after a good one reports the good one's result when the refresh kept the page's history. |

## Left out

- The HTTP transport, TLS, the real sleep between retries and the 15 s timeout are left out. Each try's reply is a parameter `reply: nat -> Reply`.
- The periodic firing of `setInterval` is left out. A timer is a handle in a set.
- Async interleaving is not modelled. `registrarMudancaStatus` is fired without `await` from `requisitarSefaz` and `toggleSimulatedStatus`, and timer and on-demand probes can race. Each call is treated as atomic and sequential.
- The connection lifecycle is left out: `createConnection`, `connection.end` and failures of `end`. Each statement's outcome is a parameter `Store`, and its message is opaque. A connection failure and a statement failure look alike.
- `JSON.stringify` of `detalhes` is left out. The `Detail` datatype keeps the value that would be serialised.
- `Date` is left out. Timestamps are integers, and `new Date(x)` is kept as the value `DateOf(x)`.
- `parseFloat` and `DECIMAL(15,2)` rounding are left out. The bound total is kept as `FloatOf(x)`.
- MySQL's case- and padding-insensitive string comparison is left out. The `WHERE chave = ?` lookup and `status = 'REJEITADA'` compare exactly.
- A numeric `chave` from a payload is kept as a number and is not coerced to text.
- The `nfes` map is keyed by the value bound to `chave`.
- NfeController.ListarNfes: a `NaN` LIMIT or OFFSET is taken as refused by the store, like a negative one. The message is `Incorrect arguments to mysqld_stmt_execute`.
- SefazMonitor.Monitor.ObterNfesRejeitadas: MySQL has no order among rows with equal `data_consulta`. The model promises the descending order and that each selected row appears once, not a particular tie order.
- SefazMonitor.Monitor.ObterHistoricoStatus: rows with equal timestamps come back in reverse insertion order. MySQL leaves that tie order open, so the model fixes one of the orders it allows.
- MonitorController.ObterHistoricoStatus: it inherits that tie order from the service.
- SefazMonitor.Monitor.ObterStatusAtual: the newest row is the last one inserted. Under `ORDER BY timestamp DESC LIMIT 1` with a tie at the top, MySQL may return another row with the same timestamp.
- MonitorController.ListarNfesRejeitadas: the `message` field is not modelled, because the service never sets `erro`, so it is always null.
- MonitorController.ListarNfesRejeitadas: a `NaN` limit in the fallback page would render as JSON null. That rendering is not modelled.
- ClientApp.StatusPanel.VerificarStatusSefaz is left out in part:
  - the early `return false` when the status element is missing;
  - the DOM updates and the `AbortController` timeout beyond a rejected fetch;
  - `salvarHistoricoLocal`.
- The rest of the page is left out: `renderizarHistorico`, `alert`, bootstrap, `localStorage` and the toggle handler. This is interface code with no logic to state.
- `salvarXmlNfe` is left out. It only writes files and reuses `gerarArquivoXml`, which is modelled.
- The status-monitor HTTP handlers are left out: `obterStatusSefaz`, `verificarStatusSefaz`, `iniciarMonitoramento`, `pararMonitoramento` and the toggle. They only forward to service methods that are modelled.
- The Express wiring is left out: `index.js`, `src/routes.js` and the error middleware.
- Persistence.Database.InsertStatus and SefazMonitor.Monitor.ObterHistoricoStatus: the `online` column keeps the JavaScript value that was bound, such as `true`, `''` or an object. The column is `BOOLEAN` (`TINYINT(1)`), and MySQL reads it back as 0 or 1; that read-back is not modelled. MySQL's refusal (in strict mode) or coercion to 0 of a non-boolean value is not modelled either. Such a refusal is reachable only as a `Down` store outcome.
- Js.ParseInt and MonitorController.IntOr: a finite number is an exact integer. JavaScript numbers are IEEE-754 doubles, so `parseInt` rounds a value above 2^53 to the nearest double and gives `Infinity` from 2^1024 on. Neither is modelled, and that is why `IntOr`'s `requires !n.Infinity?` holds at every call. It affects `MonitorController.CriarOpcoesPaginacao` (its page round-trip near 2^53, and a huge page whose offset is `Infinity`, which the source answers with the fallback page while `MonitorController.ListarNfesRejeitadas` answers an empty success page), `NfeController.ListarNfes` (the echoed page) and `SefazMonitor.CheckInterval` (a huge `STATUS_CHECK_INTERVAL`).
- NfeController.ListarNfes: with `limit=0`, `pages` is `Infinity`, or `NaN` on an empty table, and `res.json` renders either as null. That rendering is not modelled.
- Handler binding is not modelled. `src/routes.js` passes the controller methods unbound, so inside a class method `this` is undefined. Every handler that calls `this.` then throws a TypeError in its `try` and again in its `catch`, and the request gets no response. The controllers are modelled as called on their objects.
- SefazMonitor.BuildRequest: the endpoint lookup is a plain map. The source's object lookup also matches inherited names such as `constructor` or `toString`, which the model does not.
- ClientApp: JavaScript strings are UTF-16 code units. The model's `string` is a sequence of code points, so `Group4IsSpaced` and the abbreviated key stated on text outside the BMP count differently.
- The xml2js parser is a parameter `parse`. Its `explicitArray: false` tree is taken as given.
- The mod-11 check digit of the access key is not checked by the code, so none is modelled.

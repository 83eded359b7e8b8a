# servico_mensagens: replicated message board, modelled in Dafny

The system is a peer-to-peer message board. Each node (`Cliente`) keeps a
Lamport logical clock (`LamportClock`) and its own copy of the board
(`MuralMensagens`). A board is a counter plus an ordered list of messages
(`Mensagem`), and each message carries a visibility `tipo` ("publica" or
"privada"). Nodes exchange five kinds of request:

- `NOVA_MENSAGEM`: push one freshly posted message;
- `SOLICITAR_SINCRONIZACAO` / `RESPOSTA_SINCRONIZACAO`: delta sync from a counter;
- `SOLICITAR_MURAL_COMPLETO` / `RESPOSTA_MURAL_COMPLETO`: full-board sync, where the strictly larger counter wins.

On start-up a node asks every peer for its full board. It adopts the first
response with the strictly largest counter, if that counter beats its own.

The model has six modules:

- `Wrappers`: `Option`.
- `Mensagens` (`mensagem.dfy`). Covers:
  - the `Mensagem` bean as a class with its two constructors and six setters;
  - the JSON object the board stores for a message (`MensagemJson`). A missing field, a JSON `null` and a text field are three different values;
  - how Jackson writes a message (`ParaJson`) and how the board reads it back through the five-argument constructor (`Ler`) or the four-argument one (`LerPublica`);
  - the `toString` visibility indicator.
- `Lamport` (`lamport_clock.dfy`). The clock is a class with one integer field. `Passo` specifies a `tick`/`update` step, and `Retornos` gives the values a run of steps returns.
- `Murais` (`mural_mensagens.dfy`). The board file is modelled by its contents, `Mural(contador, mensagens)`. The `MuralMensagens` class reads and rewrites it:
  - every write method is proved equal to a specification function on the old state: `ComMensagem`, `ComMensagens` and `Substituido`;
  - every read is proved against `Sufixo`, `PorTipo` or `Todas`;
  - deduplication is specified twice and the two are proved equal. `Mesclar` is the source's loop, which checks each message against the growing board. `Sobreviventes` is a reference definition.
- `Protocolo` (`protocolo.dfy`). Each handler is a pure transition on a node's `EstadoNo(relogio, mural, conexoes)` and returns what it writes back. This module also holds:
  - start-up selection (`Bootstrap`);
  - local posting (`Postagem`, `Postado`);
  - the connectivity probe (`Sondar`);
  - convergence lemmas that relate two nodes.
- `Clientes` (`cliente.dfy`). The `Cliente` class holds a clock object, a board object and its connected set. Each handler method is proved to perform exactly the matching `Protocolo` transition.

Clocks, sockets and probes are parameters:

- `agora` is the wall-clock timestamp a constructor would stamp;
- `millis` is `System.currentTimeMillis()` in a posted id;
- `falhas` is the set of peers whose send fails;
- `respondem` is the set of peers whose connection probe succeeds;
- start-up responses arrive as the sequence, in examination order, of those that came back in time.

Behaviour of the code that the model keeps as written:

- A received `NOVA_MENSAGEM` is stored through `adicionarMensagem` (Cliente.java:144), which does not check identifiers. A repeated delivery is therefore stored twice (`EntregaRepetidaDuplica`). Such a board has a repeated identifier, and the delta sync from it then does not rebuild it on a replica (`SincronizacaoDeltaIdRepetido`).
- Delta and full sync do not carry `tipo`:
  - the delta-sync request is answered through the four-argument constructor (MuralMensagens.java:172-177);
  - its response is rebuilt through the four-argument constructor too (Cliente.java:182-187);
  - `substituirMural` omits the field (MuralMensagens.java:145-151).

  A private message therefore comes back as public after sync (`SincronizacaoDeltaReconstroi`, `SubstituidoLidoPublico`, `BootstrapAdotaPar`).
- With a negative requester counter k, `getMensagensAPartirDe` reads `mensagens.get(k)` with k < 0 (MuralMensagens.java:170-171), which returns `null`, so the handler throws and nothing is written. `GetMensagensAPartirDe` returns `None` there.
- A `null` `tipo` is stored as a JSON `null`. `has("tipo")` is then true and it reads back as the text "null" (`LerParaJson`).

## Model

| member | source | states |
|---|---|---|
| Mensagens.LerParaJson | src/main/java/br/com/servico_mensagens/MuralMensagens.java:76-82 | writing a message and reading it back through the five-argument constructor returns it unchanged iff its `tipo` is not null; a null `tipo` reads back as "null" |
| Mensagens.ParaJsonLer | src/main/java/br/com/servico_mensagens/MuralMensagens.java:244-252 | reading a stored object and writing it again gives the same object iff its `tipo` field is present as text |
| Mensagens.Mensagem.Publica | src/main/java/br/com/servico_mensagens/Mensagem.java:29-36 | the four-argument constructor stores the given id, content, author and clock, `tipo` "publica" and the current time |
| Mensagens.Mensagem.constructor | src/main/java/br/com/servico_mensagens/Mensagem.java:38-45 | the five-argument constructor stores exactly the given id, content, author, clock and (possibly null) `tipo` |
| Mensagens.Mensagem.SetId | src/main/java/br/com/servico_mensagens/Mensagem.java:51-53 | sets `id`; every other field is unchanged |
| Mensagens.Mensagem.SetConteudo | src/main/java/br/com/servico_mensagens/Mensagem.java:59-61 | sets `conteudo`; every other field is unchanged |
| Mensagens.Mensagem.SetAutor | src/main/java/br/com/servico_mensagens/Mensagem.java:67-69 | sets `autor`; every other field is unchanged |
| Mensagens.Mensagem.SetTimestamp | src/main/java/br/com/servico_mensagens/Mensagem.java:75-77 | sets `timestamp`; every other field is unchanged |
| Mensagens.Mensagem.SetLamportClock | src/main/java/br/com/servico_mensagens/Mensagem.java:83-85 | sets `lamportClock`; every other field is unchanged |
| Mensagens.Mensagem.SetTipo | src/main/java/br/com/servico_mensagens/Mensagem.java:91-93 | sets `tipo`; every other field is unchanged |
| Mensagens.Mensagem.Indicador | src/main/java/br/com/servico_mensagens/Mensagem.java:96-97 | "[PÚBLICA]" iff `tipo` is "publica", "[PRIVADA]" for any other string or null |
| Lamport.Passo | src/main/java/br/com/servico_mensagens/LamportClock.java:17-31 | a tick gives old+1; an update gives max(old, t)+1, which exceeds both the old value and t |
| Lamport.RetornosCrescentes | src/main/java/br/com/servico_mensagens/LamportClock.java:17-31 | without `setTime`, a run of ticks and updates returns one value per call; the values rise strictly, all exceed the start value, and each update's exceeds its timestamp |
| Lamport.LamportClock.constructor | src/main/java/br/com/servico_mensagens/LamportClock.java:9-11 | the default clock starts at 0 |
| Lamport.LamportClock.ComValor | src/main/java/br/com/servico_mensagens/LamportClock.java:13-15 | the valued clock starts at the given value |
| Lamport.LamportClock.Tick | src/main/java/br/com/servico_mensagens/LamportClock.java:17-19 | the clock becomes old+1 and that value is returned |
| Lamport.LamportClock.Update | src/main/java/br/com/servico_mensagens/LamportClock.java:21-31 | the clock becomes max(old, t)+1, strictly above both, and that value is returned |
| Lamport.LamportClock.GetTime | src/main/java/br/com/servico_mensagens/LamportClock.java:33-35 | returns the current value and changes nothing |
| Lamport.LamportClock.SetTime | src/main/java/br/com/servico_mensagens/LamportClock.java:37-39 | the clock becomes exactly the given value |
| Lamport.SetTimeQuebraMonotonia | src/main/java/br/com/servico_mensagens/LamportClock.java:37-39 | `setTime` can lower the clock: a tick after it can return less than a tick before it |
| Murais.MuralMensagens.constructor | src/main/java/br/com/servico_mensagens/MuralMensagens.java:31-38 | a new board has counter 0 and no messages |
| Murais.MuralMensagens.AdicionarMensagem | src/main/java/br/com/servico_mensagens/MuralMensagens.java:68-87 | appends the message, with its `tipo`, at the end without deduplication; the counter rises by exactly 1; counter == length is kept |
| Murais.MuralMensagens.AdicionarMensagens | src/main/java/br/com/servico_mensagens/MuralMensagens.java:104-117 | the board becomes the loop's result, checking each message against the growing board; the counter rises by the number appended; counter == length is kept |
| Murais.MesclarComoSobreviventes | src/main/java/br/com/servico_mensagens/MuralMensagens.java:104-116 | the batch append keeps the old board as a prefix and appends, in input order, exactly the messages whose id is neither on the board nor earlier in the batch |
| Murais.SobreviventesPropriedades | src/main/java/br/com/servico_mensagens/MuralMensagens.java:104-116 | the appended messages are at most as many as the input; none repeats an id or reuses one already on the board; every input id ends up on the board; each appended message is one of the inputs |
| Murais.SobreviventesCota | src/main/java/br/com/servico_mensagens/MuralMensagens.java:104-115 | a batch appends at most one message per input |
| Murais.SobreviventesNaoVistos | src/main/java/br/com/servico_mensagens/MuralMensagens.java:105 | no appended message reuses an identifier already on the board |
| Murais.SobreviventesIdsUnicos | src/main/java/br/com/servico_mensagens/MuralMensagens.java:105-113 | no identifier is appended twice, even when it repeats within the batch |
| Murais.SobreviventesCobertura | src/main/java/br/com/servico_mensagens/MuralMensagens.java:104-116 | after the batch every input's identifier is on the board |
| Murais.SobreviventesOrigem | src/main/java/br/com/servico_mensagens/MuralMensagens.java:106-113 | every appended message is one of the inputs, written with all six fields |
| Murais.SobreviventesSemNovos | src/main/java/br/com/servico_mensagens/MuralMensagens.java:105 | a batch whose ids are all on the board appends nothing |
| Murais.SobreviventesTodosNovos | src/main/java/br/com/servico_mensagens/MuralMensagens.java:105-113 | a batch of distinct, new ids is appended whole and in order |
| Murais.MesclarIdempotente | src/main/java/br/com/servico_mensagens/MuralMensagens.java:104-116 | running the batch loop twice with the same list gives the same messages as running it once |
| Murais.ComMensagensAnexaSobreviventes | src/main/java/br/com/servico_mensagens/MuralMensagens.java:104-117 | the batch append's new board and counter in terms of the reference definition |
| Murais.ComMensagensIdempotente | src/main/java/br/com/servico_mensagens/MuralMensagens.java:104-117 | appending the same batch twice leaves the board and counter that appending it once leaves |
| Murais.ComMensagensIdsUnicos | src/main/java/br/com/servico_mensagens/MuralMensagens.java:104-116 | on a board without duplicate ids, the batch append introduces none |
| Murais.ConsistenciaPreservada | src/main/java/br/com/servico_mensagens/MuralMensagens.java:84-85 | counter == length holds initially and after both appends, and after a replace whose counter is the list's length |
| Murais.IdsExiste | src/main/java/br/com/servico_mensagens/MuralMensagens.java:127-134 | "some stored message has this id" is membership in the board's id set |
| Murais.MuralMensagens.MensagemExisteNoJson | src/main/java/br/com/servico_mensagens/MuralMensagens.java:127-134 | true iff some message in the list has the given id |
| Murais.MuralMensagens.SubstituirMural | src/main/java/br/com/servico_mensagens/MuralMensagens.java:141-155 | the old board is discarded; the board becomes the given messages in order, without `tipo`, and the counter becomes the given value whatever the list's length |
| Murais.SubstituidoLidoPublico | src/main/java/br/com/servico_mensagens/MuralMensagens.java:197 | after a replace every message reads back as "publica": filtering by "publica" gives all of them, filtering by "privada" gives none |
| Murais.MuralMensagens.GetMensagensAPartirDe | src/main/java/br/com/servico_mensagens/MuralMensagens.java:163-182 | for k >= 0, the messages at k..size-1 in order, read as "publica", empty when k >= size; for k < 0 there is no result |
| Murais.MuralMensagens.GetMensagensPorTipo | src/main/java/br/com/servico_mensagens/MuralMensagens.java:189-211 | the messages whose `tipo` reads as t, a missing one counting as "publica", in board order |
| Murais.PorTipoCaracterizacao | src/main/java/br/com/servico_mensagens/MuralMensagens.java:196-208 | the filter keeps exactly the messages whose `tipo` reads as t, each labelled t, and no more than the board holds |
| Murais.PorTipoTodas | src/main/java/br/com/servico_mensagens/MuralMensagens.java:196-208 | when every message reads as t, the filter returns the whole board |
| Murais.PorTipoNenhuma | src/main/java/br/com/servico_mensagens/MuralMensagens.java:196-208 | when no message reads as t, the filter returns nothing |
| Murais.MuralMensagens.GetContador | src/main/java/br/com/servico_mensagens/MuralMensagens.java:222-233 | returns the stored counter |
| Murais.MuralMensagens.GetMensagens | src/main/java/br/com/servico_mensagens/MuralMensagens.java:236-256 | every message in board order, each read with its `tipo` |
| Protocolo.DespachoSaidas | src/main/java/br/com/servico_mensagens/Cliente.java:100-117 | NOVA_MENSAGEM answers "OK"; the two request kinds answer exactly once (a negative sync counter answers nothing); responses and unknown kinds answer nothing; requests change no state |
| Protocolo.NovaMensagemArmazenada | src/main/java/br/com/servico_mensagens/Cliente.java:131-144 | the clock becomes max(local, t)+1; exactly one message is appended as sent, a missing `tipo` becoming "publica"; the counter rises by 1 |
| Protocolo.EntregaRepetidaDuplica | src/main/java/br/com/servico_mensagens/Cliente.java:144 | delivering the same NOVA_MENSAGEM twice stores it twice |
| Protocolo.ContadorNaoMaiorIgnorado | src/main/java/br/com/servico_mensagens/Cliente.java:177-191 | a sync or full response whose counter is not strictly larger leaves the node unchanged |
| Protocolo.SincronizacaoIdempotente | src/main/java/br/com/servico_mensagens/Cliente.java:177-191 | applying the same sync response twice leaves what applying it once left |
| Protocolo.SincronizacaoDeltaReconstroi | src/main/java/br/com/servico_mensagens/Cliente.java:157-191 | when the peer's counter equals its message count and no identifier is stored twice on it, a node holding the peer's first k messages (counter k) that applies the peer's answer to "from k" gets the peer's counter and the peer's messages, the suffix relabelled "publica"; identical when the suffix was public |
| Protocolo.SincronizacaoDeltaIdRepetido | src/main/java/br/com/servico_mensagens/Cliente.java:157-191 | the identifier hypothesis is needed: a peer holding one message twice (counter 2) answers "from 1" with the second copy, the replica's deduplicating append drops it, and the replica keeps counter 1 and one message |
| Protocolo.MelhorResposta | src/main/java/br/com/servico_mensagens/Cliente.java:290-303 | the chosen response, if any, is an index into the responses |
| Protocolo.MelhorRespostaCaracterizacao | src/main/java/br/com/servico_mensagens/Cliente.java:290-305 | the choice is the first response with the strictly largest counter when that counter beats the local one, and none otherwise; it is the only choice with that property |
| Protocolo.MaiorContadorPropriedades | src/main/java/br/com/servico_mensagens/Cliente.java:294-303 | the largest counter bounds every response and is some response's counter |
| Protocolo.PrimeiroComPropriedades | src/main/java/br/com/servico_mensagens/Cliente.java:298 | the first response with a given counter has it, and no earlier response has it |
| Protocolo.BootstrapSemMelhorMantem | src/main/java/br/com/servico_mensagens/Cliente.java:285-311 | with no response, or none above the local counter, the node is unchanged |
| Protocolo.BootstrapAdotaPar | src/main/java/br/com/servico_mensagens/Cliente.java:234-241 | a fresh node that bootstraps from one non-empty peer gets its counter and all its messages, each now reading "publica" |
| Protocolo.PostagemEntregue | src/main/java/br/com/servico_mensagens/Cliente.java:631-652 | a post of any `tipo` delivered to a peer answers "OK", pushes the peer's clock past the sender's tick and appends exactly the posted message, with the sender's id |
| Protocolo.SondarExata | src/main/java/br/com/servico_mensagens/Cliente.java:536-546 | the probe's set is exactly the configured peers that answer |
| Protocolo.ProcessarPreservaConsistencia | src/main/java/br/com/servico_mensagens/Cliente.java:100-117 | every handler keeps counter == length when a full response's counter is its list's length |
| Protocolo.BootstrapPreservaConsistencia | src/main/java/br/com/servico_mensagens/Cliente.java:284-307 | bootstrap keeps counter == length when each response's counter is its list's length |
| Clientes.Cliente.constructor | src/main/java/br/com/servico_mensagens/Cliente.java:38-52 | a new node has clock 0, an empty board, no connections and nobody logged in |
| Clientes.Cliente.Autenticar | src/main/java/br/com/servico_mensagens/Cliente.java:336-354 | a successful login records the nick and sets the logged-in flag; clock, board and connections are unchanged |
| Clientes.Cliente.ProcessarConexao | src/main/java/br/com/servico_mensagens/Cliente.java:91-117 | dispatching a request performs exactly the protocol transition for its kind and writes what it prescribes |
| Clientes.Cliente.ProcessarNovaMensagem | src/main/java/br/com/servico_mensagens/Cliente.java:129-144 | the node takes exactly the NOVA_MENSAGEM transition: clock update, then one non-deduplicated append |
| Clientes.Cliente.ProcessarSolicitacaoSincronizacao | src/main/java/br/com/servico_mensagens/Cliente.java:155-164 | answers iff the requester's counter is not negative, with the local counter and the messages from that counter on; changes nothing |
| Clientes.Cliente.ProcessarRespostaSincronizacao | src/main/java/br/com/servico_mensagens/Cliente.java:172-191 | batch-appends the offered messages as public ones only when the offered counter is strictly larger |
| Clientes.Cliente.ProcessarSolicitacaoMuralCompleto | src/main/java/br/com/servico_mensagens/Cliente.java:234-241 | answers with the local counter and every message; changes nothing |
| Clientes.Cliente.ProcessarRespostaMuralCompleto | src/main/java/br/com/servico_mensagens/Cliente.java:249-256 | replaces the board only when the offered counter is strictly larger |
| Clientes.Cliente.AnalisarEAtualizarMural | src/main/java/br/com/servico_mensagens/Cliente.java:284-307 | adopts, through the whole-board replace, the first response with the strictly largest counter above the local one, or leaves the node unchanged |
| Clientes.Cliente.PostarMensagem | src/main/java/br/com/servico_mensagens/Cliente.java:629-662 | ticks the clock once; appends one message whose clock is the tick and whose author is the nick when logged in, else the node name; every connected peer whose send fails is dropped and only those |
| Clientes.Cliente.ConectarComOutrosClientes | src/main/java/br/com/servico_mensagens/Cliente.java:534-546 | the connected set becomes exactly the configured peers that answer the probe |

## Left out

- JSON parsing and serialisation through Jackson, and the board file. The model keeps the file's contents in memory. Not modelled:
  - the "file unreadable" branches (a no-op, an empty list, a counter of 0);
  - loading a board file that already exists when a node starts (MuralMensagens.java:31-43); a new node always starts empty;
  - the empty `salvar`.
- Requests with a missing or mistyped field, a `null` request kind, and `null` strings other than `tipo`. The source's failures on these are not modelled.
- `ReentrantReadWriteLock` and the `AtomicInteger` compare-and-set loop: each operation is one atomic step.
  - Lamport.LamportClock.Update: the compare-and-set retry loop is modelled as one step, because retries only re-read a value other threads changed.
- Sockets, the accept loop, the thread pool, `CountDownLatch` and its 5-second timeout, `enviarMensagemComResposta`, `enviarMensagem`, `testarConexao` and `parar`. Sends and probes are the `falhas` and `respondem` oracles. The start-up driver `solicitarSincronizacao` is the sequence of responses given to `AnalisarEAtualizarMural`.
- Clientes.Cliente.PostarMensagem: the sends run as concurrent tasks that remove from a plain `HashSet` while it is being iterated. The model sends one peer at a time and does not model that race or a `ConcurrentModificationException`.
- The interactive menu, the login and confirmation prompts, the view submenus and the iText PDF export. The password is not modelled.
  - Clientes.Cliente.Autenticar models only the state change of a successful login.
  - `nickUsuario` starts as "" instead of `null`; no contract depends on it before a login.
- The getters of `Mensagem` and the default constructor `Mensagem()`:
  - the getters are direct field reads in the model, and each setter's contract fixes what the matching getter then returns;
  - the default constructor is used only by Jackson.
- The formatting in the `toString` methods and `String.format`. Only the visibility indicator of `Mensagem.toString` is modelled (`Indicador`).
- Wall-clock values: the constructor's timestamp and the milliseconds in a posted id are parameters.
- 32-bit overflow of the clock and counter: integers are unbounded.
- Bootstrap examines the responses in the iteration order of a `ConcurrentHashMap`; the model takes that order as the given sequence.
- The launchers `Cliente1`, `Cliente2` and `Cliente3`, which only construct nodes with fixed ports.

/**
 * The peer-to-peer protocol as transitions on a node's state (clock, board,
 * connected peers), with sockets, threads and time abstracted away: each
 * handler runs atomically on the request it was given.
 */
module Protocolo {
  import opened Wrappers
  import opened Mensagens
  import opened Murais
  import Lamport

  /** The request kinds `processarConexao` switches on. */
  datatype Tipo =
    | NovaMensagem
    | SolicitarSincronizacao
    | RespostaSincronizacao
    | SolicitarMuralCompleto
    | RespostaMuralCompleto
    | Desconhecido

  function Classificar(tipo: string): Tipo {
    if tipo == "NOVA_MENSAGEM" then NovaMensagem
    else if tipo == "SOLICITAR_SINCRONIZACAO" then SolicitarSincronizacao
    else if tipo == "RESPOSTA_SINCRONIZACAO" then RespostaSincronizacao
    else if tipo == "SOLICITAR_MURAL_COMPLETO" then SolicitarMuralCompleto
    else if tipo == "RESPOSTA_MURAL_COMPLETO" then RespostaMuralCompleto
    else Desconhecido
  }

  /** One decoded request line: the fields the handlers read (each kind reads only its own). */
  datatype Dados = Dados(
    tipo: string, contador: int, lamportClock: int,
    mensagem: MensagemJson, mensagens: seq<MensagemJson>, remetente: string)

  /** A sync or full-board response: the responder's counter, messages and name. */
  datatype RespostaMural = RespostaMural(tipo: string, contador: int, mensagens: seq<MensagemJson>, remetente: string)

  /** What a connection handler writes back before closing: nothing, the line "OK", or one response. */
  datatype Saida = Nada | Ok | Escreve(resposta: RespostaMural)

  /** A node's replicated state. */
  datatype EstadoNo = EstadoNo(relogio: int, mural: Mural, conexoes: set<int>)

  /** The visibility a received NOVA_MENSAGEM gets: the sent one, "publica" when the field is missing. */
  function TipoRecebido(c: Campo): Option<string> {
    match c
    case Ausente => Some(TipoPublico)
    case Nulo => None
    case Texto(t) => Some(t)
  }

  /** The message object a NOVA_MENSAGEM handler builds from the wire. */
  function Recebida(d: MensagemJson): MensagemValor {
    MensagemValor(d.id, d.conteudo, d.autor, d.timestamp, d.lamportClock, TipoRecebido(d.tipo))
  }

  /** The message objects a sync-response handler builds: the four-argument constructor, so all public. */
  function RecebidasPublicas(ds: seq<MensagemJson>): seq<MensagemValor> {
    seq(|ds|, i requires 0 <= i < |ds| =>
      MensagemValor(ds[i].id, ds[i].conteudo, ds[i].autor, ds[i].timestamp, ds[i].lamportClock, Some(TipoPublico)))
  }

  // ----- handlers -----

  function ReceberNovaMensagem(s: EstadoNo, d: MensagemJson, t: int): EstadoNo {
    s.(relogio := Lamport.Passo(s.relogio, Lamport.Update(t)), mural := ComMensagem(s.mural, Recebida(d)))
  }

  function ResponderSincronizacao(s: EstadoNo, nome: string, k: int): Saida {
    if k < 0 then Nada
    else Escreve(RespostaMural("RESPOSTA_SINCRONIZACAO", s.mural.contador, Serializar(Sufixo(s.mural.mensagens, k)), nome))
  }

  function AplicarSincronizacao(s: EstadoNo, c: int, ds: seq<MensagemJson>): EstadoNo {
    if c > s.mural.contador then s.(mural := ComMensagens(s.mural, RecebidasPublicas(ds))) else s
  }

  function ResponderMuralCompleto(s: EstadoNo, nome: string): Saida {
    Escreve(RespostaMural("RESPOSTA_MURAL_COMPLETO", s.mural.contador, Serializar(Todas(s.mural.mensagens)), nome))
  }

  function AplicarMuralCompleto(s: EstadoNo, c: int, ds: seq<MensagemJson>): EstadoNo {
    if c > s.mural.contador then s.(mural := Substituido(ds, c)) else s
  }

  /** One inbound connection: the new state and what is written back. */
  function Processar(s: EstadoNo, nome: string, d: Dados): (EstadoNo, Saida) {
    match Classificar(d.tipo)
    case NovaMensagem => (ReceberNovaMensagem(s, d.mensagem, d.lamportClock), Ok)
    case SolicitarSincronizacao => (s, ResponderSincronizacao(s, nome, d.contador))
    case RespostaSincronizacao => (AplicarSincronizacao(s, d.contador, d.mensagens), Nada)
    case SolicitarMuralCompleto => (s, ResponderMuralCompleto(s, nome))
    case RespostaMuralCompleto => (AplicarMuralCompleto(s, d.contador, d.mensagens), Nada)
    case Desconhecido => (s, Nada)
  }

  // ----- bootstrap -----

  /** The largest counter among the responses. */
  function MaiorContador(rs: seq<RespostaMural>): int
    requires |rs| > 0
    decreases |rs|
  {
    if |rs| == 1 then rs[0].contador
    else
      var m := MaiorContador(rs[..|rs| - 1]);
      var u := rs[|rs| - 1].contador;
      if u > m then u else m
  }

  /** The first index of a response with counter `c` (`|rs|` if there is none). */
  function PrimeiroCom(rs: seq<RespostaMural>, c: int): nat
    decreases |rs|
  {
    if rs == [] then 0
    else if rs[0].contador == c then 0
    else 1 + PrimeiroCom(rs[1..], c)
  }

  /** `b` is the response to adopt: the first with the strictly largest counter, and above `local`; none if no counter exceeds `local`. */
  ghost predicate EhMelhor(local: int, rs: seq<RespostaMural>, b: Option<nat>) {
    match b
    case None => forall j :: 0 <= j < |rs| ==> rs[j].contador <= local
    case Some(i) =>
      && i < |rs|
      && rs[i].contador > local
      && (forall j :: 0 <= j < |rs| ==> rs[j].contador <= rs[i].contador)
      && (forall j :: 0 <= j < i ==> rs[j].contador < rs[i].contador)
  }

  lemma {:induction false} MaiorContadorPropriedades(rs: seq<RespostaMural>)
    requires |rs| > 0
    ensures forall j :: 0 <= j < |rs| ==> rs[j].contador <= MaiorContador(rs)
    ensures exists j :: 0 <= j < |rs| && rs[j].contador == MaiorContador(rs)
    decreases |rs|
  {
    if |rs| > 1 {
      var init := rs[..|rs| - 1];
      MaiorContadorPropriedades(init);
      forall j | 0 <= j < |rs| ensures rs[j].contador <= MaiorContador(rs) {
        if j < |rs| - 1 { assert rs[j] == init[j]; }
      }
      var j :| 0 <= j < |init| && init[j].contador == MaiorContador(init);
      assert rs[j] == init[j];
    } else {
      assert rs[0].contador == MaiorContador(rs);
    }
  }

  lemma {:induction false} PrimeiroComPropriedades(rs: seq<RespostaMural>, c: int)
    requires exists j :: 0 <= j < |rs| && rs[j].contador == c
    ensures PrimeiroCom(rs, c) < |rs| && rs[PrimeiroCom(rs, c)].contador == c
    ensures forall j :: 0 <= j < PrimeiroCom(rs, c) ==> rs[j].contador != c
    decreases |rs|
  {
    if rs[0].contador != c {
      var j :| 0 <= j < |rs| && rs[j].contador == c;
      assert rs[1..][j - 1] == rs[j];
      PrimeiroComPropriedades(rs[1..], c);
      forall j | 0 <= j < PrimeiroCom(rs, c) ensures rs[j].contador != c {
        if j > 0 { assert rs[j] == rs[1..][j - 1]; }
      }
    }
  }

  /** The response the bootstrap adopts, if any. */
  function MelhorResposta(local: int, rs: seq<RespostaMural>): (r: Option<nat>)
    ensures r.Some? ==> r.value < |rs|
  {
    if rs == [] then None
    else
      var m := MaiorContador(rs);
      if m <= local then None
      else
        MaiorContadorPropriedades(rs);
        PrimeiroComPropriedades(rs, m);
        Some(PrimeiroCom(rs, m))
  }

  /** The adopted response is the first strictly largest one above the local counter, and no other choice is. */
  lemma MelhorRespostaCaracterizacao(local: int, rs: seq<RespostaMural>, b: Option<nat>)
    ensures EhMelhor(local, rs, MelhorResposta(local, rs))
    ensures EhMelhor(local, rs, b) ==> b == MelhorResposta(local, rs)
  {
    var r := MelhorResposta(local, rs);
    if rs != [] {
      var m := MaiorContador(rs);
      MaiorContadorPropriedades(rs);
      if m > local {
        PrimeiroComPropriedades(rs, m);
      }
    }
    if EhMelhor(local, rs, b) && b.Some? {
      assert rs[b.value].contador == rs[r.value].contador;
    }
  }

  /** The bootstrap's effect: adopt the chosen response's board and counter, or keep the local board. */
  function Bootstrap(s: EstadoNo, rs: seq<RespostaMural>): EstadoNo {
    match MelhorResposta(s.mural.contador, rs)
    case None => s
    case Some(i) => s.(mural := Substituido(rs[i].mensagens, rs[i].contador))
  }

  // ----- posting and probing -----

  function Digito(d: nat): char
    requires d < 10
  {
    (48 + d) as char
  }

  function Digitos(n: nat): string
    decreases n
  {
    if n < 10 then [Digito(n)] else Digitos(n / 10) + [Digito(n % 10)]
  }

  /** An integer in decimal, as string concatenation renders it. */
  function Decimal(i: int): string {
    if i < 0 then "-" + Digitos(-i) else Digitos(i)
  }

  /** The message a post creates: its identifier joins author, Lamport time and the wall-clock milliseconds. */
  function Postagem(s: EstadoNo, autor: string, conteudo: string, tipo: string, agora: string, millis: string): MensagemValor {
    var t := Lamport.Passo(s.relogio, Lamport.Tick);
    MensagemValor(autor + "_" + Decimal(t) + "_" + millis, conteudo, autor, agora, t, Some(tipo))
  }

  /** The state after a post: clock ticked, message appended locally, peers whose send failed dropped. */
  function Postado(s: EstadoNo, autor: string, conteudo: string, tipo: string, agora: string, millis: string, falhas: set<int>): EstadoNo {
    EstadoNo(Lamport.Passo(s.relogio, Lamport.Tick),
             ComMensagem(s.mural, Postagem(s, autor, conteudo, tipo, agora, millis)),
             s.conexoes - falhas)
  }

  /** The configured ports whose probe succeeds, built in port order. */
  function Sondar(portas: seq<int>, respondem: set<int>): set<int>
    decreases |portas|
  {
    if portas == [] then {}
    else
      var p := portas[|portas| - 1];
      Sondar(portas[..|portas| - 1], respondem) + (if p in respondem then {p} else {})
  }

  /** The probe connects exactly the configured peers that answer. */
  lemma {:induction false} SondarExata(portas: seq<int>, respondem: set<int>)
    ensures forall p :: p in Sondar(portas, respondem) <==> p in portas && p in respondem
    decreases |portas|
  {
    if portas != [] {
      var init := portas[..|portas| - 1];
      SondarExata(init, respondem);
      assert portas == init + [portas[|portas| - 1]];
    }
  }

  // ----- properties of the protocol -----

  /** NOVA_MENSAGEM answers "OK"; the two request kinds answer once (a negative sync index makes the handler throw); responses and unknown kinds answer nothing; requests change nothing. */
  lemma DespachoSaidas(s: EstadoNo, nome: string, d: Dados)
    ensures Processar(s, nome, d).1 == Ok <==> d.tipo == "NOVA_MENSAGEM"
    ensures Processar(s, nome, d).1.Escreve? <==>
              d.tipo == "SOLICITAR_MURAL_COMPLETO" || (d.tipo == "SOLICITAR_SINCRONIZACAO" && d.contador >= 0)
    ensures Processar(s, nome, d).1 == Nada <==>
              d.tipo !in {"NOVA_MENSAGEM", "SOLICITAR_MURAL_COMPLETO"} && (d.tipo == "SOLICITAR_SINCRONIZACAO" ==> d.contador < 0)
    ensures Classificar(d.tipo) in {SolicitarSincronizacao, SolicitarMuralCompleto, Desconhecido} ==>
              Processar(s, nome, d).0 == s
  {
  }

  /** A received message moves the clock past both clocks and is stored once, as sent, except that a missing `tipo` becomes "publica". */
  lemma NovaMensagemArmazenada(s: EstadoNo, d: MensagemJson, t: int)
    ensures ReceberNovaMensagem(s, d, t).relogio == (if s.relogio >= t then s.relogio else t) + 1
    ensures ReceberNovaMensagem(s, d, t).mural.contador == s.mural.contador + 1
    ensures ReceberNovaMensagem(s, d, t).mural.mensagens ==
              s.mural.mensagens + [d.(tipo := if d.tipo.Ausente? then Texto(TipoPublico) else d.tipo)]
  {
  }

  /** NOVA_MENSAGEM does not deduplicate: delivering the same message twice stores it twice. */
  lemma EntregaRepetidaDuplica(s: EstadoNo, d: MensagemJson, t: int)
    ensures var s2 := ReceberNovaMensagem(ReceberNovaMensagem(s, d, t), d, t);
            s2.mural.mensagens == s.mural.mensagens + [ParaJson(Recebida(d)), ParaJson(Recebida(d))]
            && s2.mural.contador == s.mural.contador + 2
  {
  }

  /** Equal or smaller offered counters never change the board, by either kind of response. */
  lemma ContadorNaoMaiorIgnorado(s: EstadoNo, c: int, ds: seq<MensagemJson>)
    requires c <= s.mural.contador
    ensures AplicarMuralCompleto(s, c, ds) == s
    ensures AplicarSincronizacao(s, c, ds) == s
  {
  }

  /** Applying the same sync response twice leaves what applying it once left. */
  lemma SincronizacaoIdempotente(s: EstadoNo, c: int, ds: seq<MensagemJson>)
    ensures AplicarSincronizacao(AplicarSincronizacao(s, c, ds), c, ds) == AplicarSincronizacao(s, c, ds)
  {
    if c > s.mural.contador {
      ComMensagensIdempotente(s.mural, RecebidasPublicas(ds));
    }
  }

  /** The stored objects a delta sync recreates: everything but `tipo`, which becomes "publica". */
  function ComoPublicas(ms: seq<MensagemJson>): seq<MensagemJson> {
    seq(|ms|, i requires 0 <= i < |ms| => ms[i].(tipo := Texto(TipoPublico)))
  }

  /**
   * Delta sync: a replica holding exactly the first `k` messages of a source
   * (counter `k`) that asks from `k` and applies the answer ends with the
   * source's counter and messages, with the recreated ones marked public;
   * when those were public already it ends equal to the source.
   */
  lemma SincronizacaoDeltaReconstroi(origem: EstadoNo, destino: EstadoNo, nome: string, k: int)
    requires Consistente(origem.mural) && IdsUnicos(origem.mural.mensagens)
    requires 0 <= k <= |origem.mural.mensagens|
    requires destino.mural == Mural(k, origem.mural.mensagens[..k])
    ensures ResponderSincronizacao(origem, nome, k).Escreve?
    ensures var r := ResponderSincronizacao(origem, nome, k).resposta;
            var fim := AplicarSincronizacao(destino, r.contador, r.mensagens);
            && fim.mural.contador == origem.mural.contador
            && fim.mural.mensagens == origem.mural.mensagens[..k] + ComoPublicas(origem.mural.mensagens[k..])
            && fim.relogio == destino.relogio && fim.conexoes == destino.conexoes
            && ((forall i :: k <= i < |origem.mural.mensagens| ==> origem.mural.mensagens[i].tipo == Texto(TipoPublico))
                  ==> fim.mural == origem.mural)
  {
    var ms := origem.mural.mensagens;
    var r := ResponderSincronizacao(origem, nome, k).resposta;
    var fim := AplicarSincronizacao(destino, r.contador, r.mensagens);
    var novas := RecebidasPublicas(r.mensagens);
    assert |novas| == |ms| - k;
    forall i | 0 <= i < |novas|
      ensures novas[i].id == ms[k + i].id
      ensures ParaJson(novas[i]) == ms[k + i].(tipo := Texto(TipoPublico))
    {
    }
    if k < |ms| {
      var prefixo := ms[..k];
      assert forall j :: 0 <= j < |novas| ==> novas[j].id !in Ids(prefixo);
      forall i, j | 0 <= i < j < |novas| ensures novas[i].id != novas[j].id {
        assert ms[k + i].id != ms[k + j].id;
      }
      SobreviventesTodosNovos(Ids(prefixo), novas);
      ComMensagensAnexaSobreviventes(destino.mural, novas);
      assert Serializar(novas) == ComoPublicas(ms[k..]);
    } else {
      assert ms[..k] == ms;
      assert ComoPublicas(ms[k..]) == [];
    }
    if forall i :: k <= i < |ms| ==> ms[i].tipo == Texto(TipoPublico) {
      assert ms[..k] + ComoPublicas(ms[k..]) == ms;
    }
  }

  /**
   * Without unique identifiers the delta sync does not rebuild the source: a
   * board holding one message twice (which a repeated NOVA_MENSAGEM delivery
   * produces) sends its second copy, which the replica's deduplicating append
   * drops, so the replica keeps the smaller counter.
   */
  lemma SincronizacaoDeltaIdRepetido(a: MensagemJson, origem: EstadoNo, destino: EstadoNo, nome: string)
    requires origem.mural == Mural(2, [a, a])
    requires destino.mural == Mural(1, [a])
    ensures Consistente(origem.mural) && !IdsUnicos(origem.mural.mensagens)
    ensures ResponderSincronizacao(origem, nome, 1).Escreve?
    ensures var r := ResponderSincronizacao(origem, nome, 1).resposta;
            var fim := AplicarSincronizacao(destino, r.contador, r.mensagens);
            && r.contador == 2
            && fim.mural == Mural(1, [a])
            && fim.mural.contador != origem.mural.contador
  {
    var r := ResponderSincronizacao(origem, nome, 1).resposta;
    var novas := RecebidasPublicas(r.mensagens);
    assert |novas| == 1 && novas[0].id == a.id;
    assert ExisteId([a], novas[0].id) by {
      assert [a][0].id == novas[0].id;
    }
    assert novas[1..] == [];
    assert Mesclar([a], novas) == Mesclar([a], []) == [a];
    assert ComMensagens(destino.mural, novas) == Mural(1, [a]);
    assert origem.mural.mensagens[0].id == origem.mural.mensagens[1].id;
  }

  /** Bootstrap with no responses, or none above the local counter, keeps the local board. */
  lemma BootstrapSemMelhorMantem(s: EstadoNo, rs: seq<RespostaMural>)
    requires forall j :: 0 <= j < |rs| ==> rs[j].contador <= s.mural.contador
    ensures Bootstrap(s, rs) == s
  {
    MelhorRespostaCaracterizacao(s.mural.contador, rs, None);
  }

  /**
   * Bootstrap of an empty node against one peer that answered the full-board
   * request: the node adopts the peer's counter and every field of each of the
   * peer's messages except `tipo`, which now reads "publica".
   */
  lemma BootstrapAdotaPar(x: EstadoNo, y: EstadoNo, nome: string)
    requires x.mural == Vazio
    requires Consistente(y.mural) && |y.mural.mensagens| > 0
    ensures var fim := Bootstrap(x, [ResponderMuralCompleto(y, nome).resposta]);
            && fim.mural.contador == y.mural.contador
            && |fim.mural.mensagens| == |y.mural.mensagens|
            && (forall i :: 0 <= i < |y.mural.mensagens| ==> fim.mural.mensagens[i] == y.mural.mensagens[i].(tipo := Ausente))
            && (forall i :: 0 <= i < |y.mural.mensagens| ==> Ler(fim.mural.mensagens[i]).tipo == Some(TipoPublico))
            && fim.relogio == x.relogio && fim.conexoes == x.conexoes
  {
    var r := ResponderMuralCompleto(y, nome).resposta;
    assert MaiorContador([r]) == y.mural.contador;
  }

  /**
   * A post on X delivered to Y: Y's clock becomes max(Y, X's new clock)+1 and
   * Y's board gains exactly one message, carrying the identifier X assigned.
   */
  lemma PostagemEntregue(x: EstadoNo, y: EstadoNo, nomeY: string, autor: string, conteudo: string, tipo: string,
                         agora: string, millis: string, falhas: set<int>, d: Dados)
    requires d.tipo == "NOVA_MENSAGEM"
    requires d.mensagem == ParaJson(Postagem(x, autor, conteudo, tipo, agora, millis))
    requires d.lamportClock == Postado(x, autor, conteudo, tipo, agora, millis, falhas).relogio
    ensures Processar(y, nomeY, d).1 == Ok
    ensures var fim := Processar(y, nomeY, d).0;
            && fim.relogio == (if y.relogio >= x.relogio + 1 then y.relogio else x.relogio + 1) + 1
            && |fim.mural.mensagens| == |y.mural.mensagens| + 1
            && fim.mural.mensagens[..|y.mural.mensagens|] == y.mural.mensagens
            && fim.mural.mensagens[|y.mural.mensagens|] ==
                 Postado(x, autor, conteudo, tipo, agora, millis, falhas).mural.mensagens[|x.mural.mensagens|]
            && fim.mural.mensagens[|y.mural.mensagens|].id == Postagem(x, autor, conteudo, tipo, agora, millis).id
  {
  }

  /** Every handler keeps `contador == |mensagens|`, provided a full-board response's counter is its list's length. */
  lemma ProcessarPreservaConsistencia(s: EstadoNo, nome: string, d: Dados)
    requires Consistente(s.mural)
    requires Classificar(d.tipo) == RespostaMuralCompleto ==> d.contador == |d.mensagens|
    ensures Consistente(Processar(s, nome, d).0.mural)
  {
  }

  /** Bootstrap keeps `contador == |mensagens|` when every response's counter is its list's length. */
  lemma BootstrapPreservaConsistencia(s: EstadoNo, rs: seq<RespostaMural>)
    requires Consistente(s.mural)
    requires forall j :: 0 <= j < |rs| ==> rs[j].contador == |rs[j].mensagens|
    ensures Consistente(Bootstrap(s, rs).mural)
  {
  }
}

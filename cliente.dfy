/**
 * A peer node: its clock, its board and the set of peers it last found
 * reachable. Each handler is one atomic step proved against the matching
 * transition of the protocol; a socket send is an oracle that succeeds or fails.
 */
module Clientes {
  import opened Wrappers
  import opened Mensagens
  import opened Murais
  import opened Lamport
  import opened Protocolo

  lemma NaoVazioTemElemento(s: set<int>)
    requires s != {}
    ensures exists x :: x in s
  {
    if forall x :: x !in s {
      assert false;
    }
  }

  class Cliente {
    const nome: string
    const porta: int
    const portasOutrosClientes: seq<int>
    const mural: MuralMensagens
    const lamportClock: LamportClock
    var conexoesAtivas: set<int>
    var autenticado: bool
    var nickUsuario: string

    /** The node's replicated state. */
    function Estado(): EstadoNo
      reads this, mural, lamportClock
    {
      EstadoNo(lamportClock.clock, mural.Estado(), conexoesAtivas)
    }

    /** A new node: clock 0, an empty board, no peer connected, nobody logged in. */
    constructor (nome: string, porta: int, portasOutrosClientes: seq<int>)
      ensures this.nome == nome && this.porta == porta && this.portasOutrosClientes == portasOutrosClientes
      ensures Estado() == EstadoNo(0, Vazio, {})
      ensures !autenticado
      ensures fresh(mural) && fresh(lamportClock)
    {
      this.nome := nome;
      this.porta := porta;
      this.portasOutrosClientes := portasOutrosClientes;
      this.mural := new MuralMensagens();
      this.lamportClock := new LamportClock();
      this.conexoesAtivas := {};
      this.autenticado := false;
      this.nickUsuario := "";
    }

    /** The state change of a successful login (the prompts themselves are not modelled). */
    method Autenticar(nick: string)
      modifies this
      ensures autenticado && nickUsuario == nick
      ensures Estado() == old(Estado())
    {
      nickUsuario := nick;
      autenticado := true;
    }

    /** Handles one inbound request line and returns what is written back. */
    method ProcessarConexao(dados: Dados, agora: string) returns (saida: Saida)
      modifies mural, lamportClock
      ensures (Estado(), saida) == Processar(old(Estado()), nome, dados)
    {
      match Classificar(dados.tipo)
      case NovaMensagem =>
        ProcessarNovaMensagem(dados, agora);
        saida := Ok;
      case SolicitarSincronizacao =>
        saida := ProcessarSolicitacaoSincronizacao(dados);
      case RespostaSincronizacao =>
        ProcessarRespostaSincronizacao(dados, agora);
        saida := Nada;
      case SolicitarMuralCompleto =>
        saida := ProcessarSolicitacaoMuralCompleto(dados);
      case RespostaMuralCompleto =>
        ProcessarRespostaMuralCompleto(dados);
        saida := Nada;
      case Desconhecido =>
        saida := Nada;
    }

    /** NOVA_MENSAGEM: advance the clock past the sender's and append the message without deduplication. */
    method ProcessarNovaMensagem(dados: Dados, agora: string)
      modifies mural, lamportClock
      ensures Estado() == ReceberNovaMensagem(old(Estado()), dados.mensagem, dados.lamportClock)
    {
      var mensagemData := dados.mensagem;
      var timestampRecebido := dados.lamportClock;
      var _ := lamportClock.Update(timestampRecebido);
      var tipoMensagem := TipoRecebido(mensagemData.tipo);
      var mensagem := new Mensagem(mensagemData.id, mensagemData.conteudo, mensagemData.autor,
                                   mensagemData.lamportClock, tipoMensagem, agora);
      mensagem.SetTimestamp(mensagemData.timestamp);
      mural.AdicionarMensagem(mensagem.Valor());
    }

    /** SOLICITAR_SINCRONIZACAO: answer with the local counter and the messages from the requester's counter on. */
    method ProcessarSolicitacaoSincronizacao(dados: Dados) returns (saida: Saida)
      ensures saida == ResponderSincronizacao(Estado(), nome, dados.contador)
      ensures saida.Escreve? <==> dados.contador >= 0
      ensures saida.Escreve? ==>
                && saida.resposta.contador == mural.contador
                && |saida.resposta.mensagens| == (if dados.contador <= |mural.mensagens| then |mural.mensagens| - dados.contador else 0)
    {
      var contadorSolicitante := dados.contador;
      var contador := mural.GetContador();
      var mensagens := mural.GetMensagensAPartirDe(contadorSolicitante);
      if mensagens.None? {
        saida := Nada;
      } else {
        saida := Escreve(RespostaMural("RESPOSTA_SINCRONIZACAO", contador, Serializar(mensagens.value), nome));
      }
    }

    /** RESPOSTA_SINCRONIZACAO: batch-append the offered messages, as public ones, only if the offered counter is larger. */
    method ProcessarRespostaSincronizacao(dados: Dados, agora: string)
      modifies mural
      ensures Estado() == AplicarSincronizacao(old(Estado()), dados.contador, dados.mensagens)
    {
      var contadorRemetente := dados.contador;
      var local := mural.GetContador();
      if contadorRemetente > local {
        var mensagensData := dados.mensagens;
        var mensagens: seq<MensagemValor> := [];
        var i := 0;
        while i < |mensagensData|
          invariant 0 <= i <= |mensagensData|
          invariant mensagens == RecebidasPublicas(mensagensData[..i])
          invariant mural.Estado() == old(mural.Estado())
        {
          var msgData := mensagensData[i];
          var mensagem := new Mensagem.Publica(msgData.id, msgData.conteudo, msgData.autor, msgData.lamportClock, agora);
          mensagem.SetTimestamp(msgData.timestamp);
          mensagens := mensagens + [mensagem.Valor()];
          assert RecebidasPublicas(mensagensData[..i + 1]) == RecebidasPublicas(mensagensData[..i]) + [mensagem.Valor()];
          i := i + 1;
        }
        assert mensagensData[..i] == mensagensData;
        mural.AdicionarMensagens(mensagens);
      }
    }

    /** SOLICITAR_MURAL_COMPLETO: answer with the local counter and every message. */
    method ProcessarSolicitacaoMuralCompleto(dados: Dados) returns (saida: Saida)
      ensures saida == ResponderMuralCompleto(Estado(), nome)
      ensures saida.resposta.contador == mural.contador && |saida.resposta.mensagens| == |mural.mensagens|
    {
      var contador := mural.GetContador();
      var mensagens := mural.GetMensagens();
      assert mensagens == Todas(mural.mensagens);
      saida := Escreve(RespostaMural("RESPOSTA_MURAL_COMPLETO", contador, Serializar(mensagens), nome));
    }

    /** RESPOSTA_MURAL_COMPLETO: replace the whole board only if the offered counter is strictly larger. */
    method ProcessarRespostaMuralCompleto(dados: Dados)
      modifies mural
      ensures Estado() == AplicarMuralCompleto(old(Estado()), dados.contador, dados.mensagens)
    {
      var contadorRemetente := dados.contador;
      var local := mural.GetContador();
      if contadorRemetente > local {
        mural.SubstituirMural(dados.mensagens, contadorRemetente);
      }
    }

    /**
     * Bootstrap, given the full-board responses that arrived in time, in the
     * order they are examined: adopt the first with the strictly largest
     * counter if it beats the local one.
     */
    method AnalisarEAtualizarMural(respostas: seq<RespostaMural>)
      modifies mural
      ensures Estado() == Bootstrap(old(Estado()), respostas)
    {
      if |respostas| == 0 {
        return;
      }
      var local := mural.GetContador();
      var maiorContador := local;
      var melhorResposta: Option<nat> := None;
      var i := 0;
      while i < |respostas|
        invariant 0 <= i <= |respostas|
        invariant melhorResposta.None? ==> maiorContador == local && forall j :: 0 <= j < i ==> respostas[j].contador <= local
        invariant melhorResposta.Some? ==>
                    && melhorResposta.value < i
                    && maiorContador == respostas[melhorResposta.value].contador
                    && maiorContador > local
                    && (forall j :: 0 <= j < i ==> respostas[j].contador <= maiorContador)
                    && (forall j :: 0 <= j < melhorResposta.value ==> respostas[j].contador < maiorContador)
      {
        var contador := respostas[i].contador;
        if contador > maiorContador {
          maiorContador := contador;
          melhorResposta := Some(i);
        }
        i := i + 1;
      }
      assert EhMelhor(local, respostas, melhorResposta);
      MelhorRespostaCaracterizacao(local, respostas, melhorResposta);
      if melhorResposta.Some? {
        mural.SubstituirMural(respostas[melhorResposta.value].mensagens, maiorContador);
      }
    }

    /**
     * Posts a message: tick the clock, append locally, then send NOVA_MENSAGEM
     * to every connected peer; a peer in `falhas` fails the send and is dropped.
     * Returns the message sent and the clock value sent with it.
     */
    method PostarMensagem(conteudo: string, tipo: string, agora: string, millis: string, falhas: set<int>)
      returns (enviada: MensagemJson, relogioEnviado: int)
      modifies this, mural, lamportClock
      ensures autenticado == old(autenticado) && nickUsuario == old(nickUsuario)
      ensures var autor := if autenticado then nickUsuario else nome;
              && Estado() == Postado(old(Estado()), autor, conteudo, tipo, agora, millis, falhas)
              && enviada == ParaJson(Postagem(old(Estado()), autor, conteudo, tipo, agora, millis))
      ensures relogioEnviado == old(lamportClock.clock) + 1 && relogioEnviado == lamportClock.clock
      ensures enviada.lamportClock == relogioEnviado && enviada.autor == (if autenticado then nickUsuario else nome)
    {
      var timestamp := lamportClock.Tick();
      var autor := if autenticado then nickUsuario else nome;
      var id := autor + "_" + Decimal(timestamp) + "_" + millis;
      var mensagem := new Mensagem(id, conteudo, autor, timestamp, Some(tipo), agora);
      var valor := mensagem.Valor();
      assert valor == Postagem(old(Estado()), autor, conteudo, tipo, agora, millis);
      mural.AdicionarMensagem(valor);
      enviada, relogioEnviado := ParaJson(valor), timestamp;

      var pendentes := conexoesAtivas;
      while pendentes != {}
        invariant pendentes <= old(conexoesAtivas)
        invariant conexoesAtivas == old(conexoesAtivas) - (falhas - pendentes)
        invariant mural.Estado() == ComMensagem(old(mural.Estado()), valor)
        invariant lamportClock.clock == timestamp
        invariant autenticado == old(autenticado) && nickUsuario == old(nickUsuario)
        decreases pendentes
      {
        NaoVazioTemElemento(pendentes);
        var portaOutro :| portaOutro in pendentes;
        if portaOutro in falhas {
          conexoesAtivas := conexoesAtivas - {portaOutro};
        }
        pendentes := pendentes - {portaOutro};
      }
    }

    /** The connectivity probe: the connected set becomes exactly the configured peers that answer. */
    method ConectarComOutrosClientes(respondem: set<int>)
      modifies this
      ensures Estado() == old(Estado()).(conexoes := Sondar(portasOutrosClientes, respondem))
      ensures forall p :: p in conexoesAtivas <==> p in portasOutrosClientes && p in respondem
      ensures autenticado == old(autenticado) && nickUsuario == old(nickUsuario)
    {
      conexoesAtivas := {};
      var i := 0;
      while i < |portasOutrosClientes|
        invariant 0 <= i <= |portasOutrosClientes|
        invariant conexoesAtivas == Sondar(portasOutrosClientes[..i], respondem)
        invariant autenticado == old(autenticado) && nickUsuario == old(nickUsuario)
      {
        var p := portasOutrosClientes[i];
        if p in respondem {
          conexoesAtivas := conexoesAtivas + {p};
        }
        assert portasOutrosClientes[..i + 1][..i] == portasOutrosClientes[..i];
        i := i + 1;
      }
      assert portasOutrosClientes[..i] == portasOutrosClientes;
      SondarExata(portasOutrosClientes, respondem);
    }
  }
}

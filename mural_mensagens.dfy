/**
 * The message board of one node: a counter and the ordered list of stored
 * message objects. The board file is modelled by its contents; each operation
 * reads it, changes it and writes it back as one atomic step.
 */
module Murais {
  import opened Wrappers
  import opened Mensagens

  /** The contents of the board file: `{contador, mensagens}`. */
  datatype Mural = Mural(contador: int, mensagens: seq<MensagemJson>)

  /** The counter counts the stored messages. */
  predicate Consistente(q: Mural) {
    q.contador == |q.mensagens|
  }

  /** The file a new node writes when it has none. */
  const Vazio: Mural := Mural(0, [])

  /** Some stored message has identifier `id`. */
  predicate ExisteId(ms: seq<MensagemJson>, id: string) {
    exists i :: 0 <= i < |ms| && ms[i].id == id
  }

  /** The identifiers on a board. */
  function Ids(ms: seq<MensagemJson>): set<string> {
    set i | 0 <= i < |ms| :: ms[i].id
  }

  /** No identifier is stored twice. */
  predicate IdsUnicos(ms: seq<MensagemJson>) {
    forall i, j :: 0 <= i < j < |ms| ==> ms[i].id != ms[j].id
  }

  /** The batch append's loop: each message, in order, is checked against the board as it grows. */
  function Mesclar(b: seq<MensagemJson>, novas: seq<MensagemValor>): seq<MensagemJson>
    decreases |novas|
  {
    if novas == [] then b
    else Mesclar(if ExisteId(b, novas[0].id) then b else b + [ParaJson(novas[0])], novas[1..])
  }

  /**
   * Reference definition of what a batch adds: the messages of `novas`, in
   * order, whose identifier is neither in `vistos` nor on an earlier message of the batch.
   */
  function Sobreviventes(vistos: set<string>, novas: seq<MensagemValor>): seq<MensagemJson>
    decreases |novas|
  {
    if novas == [] then []
    else if novas[0].id in vistos then Sobreviventes(vistos, novas[1..])
    else [ParaJson(novas[0])] + Sobreviventes(vistos + {novas[0].id}, novas[1..])
  }

  /** A list of messages as the JSON objects Jackson writes for them. */
  function Serializar(vs: seq<MensagemValor>): seq<MensagemJson> {
    seq(|vs|, i requires 0 <= i < |vs| => ParaJson(vs[i]))
  }

  /** The objects the full replace writes: every field but `tipo`. */
  function SemTipo(dados: seq<MensagemJson>): seq<MensagemJson> {
    seq(|dados|, i requires 0 <= i < |dados| => dados[i].(tipo := Ausente))
  }

  /** Every stored message, read with its visibility. */
  function Todas(ms: seq<MensagemJson>): seq<MensagemValor> {
    seq(|ms|, i requires 0 <= i < |ms| => Ler(ms[i]))
  }

  /** The stored messages from index `k` on, read through the four-argument constructor. */
  function Sufixo(ms: seq<MensagemJson>, k: nat): seq<MensagemValor> {
    var n := if k <= |ms| then |ms| - k else 0;
    seq(n, i requires 0 <= i < n => LerPublica(ms[k + i]))
  }

  /** The stored messages whose visibility reads as `t`, in board order. */
  function PorTipo(t: string, ms: seq<MensagemJson>): seq<MensagemValor>
    decreases |ms|
  {
    if ms == [] then []
    else
      var ultima := ms[|ms| - 1];
      PorTipo(t, ms[..|ms| - 1]) + (if TipoLido(ultima.tipo) == t then [Ler(ultima)] else [])
  }

  /** The board after the unconditional append. */
  function ComMensagem(q: Mural, m: MensagemValor): Mural {
    Mural(q.contador + 1, q.mensagens + [ParaJson(m)])
  }

  /** The board after the deduplicating batch append: the counter rises by the number appended. */
  function ComMensagens(q: Mural, novas: seq<MensagemValor>): Mural {
    var ms := Mesclar(q.mensagens, novas);
    Mural(q.contador + (|ms| - |q.mensagens|), ms)
  }

  /** The board after the whole-board replace. */
  function Substituido(dados: seq<MensagemJson>, novoContador: int): Mural {
    Mural(novoContador, SemTipo(dados))
  }

  // ----- identifiers -----

  lemma IdsExiste(ms: seq<MensagemJson>, id: string)
    ensures ExisteId(ms, id) <==> id in Ids(ms)
  {
    if ExisteId(ms, id) {
      var i :| 0 <= i < |ms| && ms[i].id == id;
      assert ms[i].id in Ids(ms);
    }
  }

  lemma IdsUnitario(e: MensagemJson)
    ensures Ids([e]) == {e.id}
  {
    assert [e][0].id == e.id;
  }

  lemma IdsConcat(a: seq<MensagemJson>, c: seq<MensagemJson>)
    ensures Ids(a + c) == Ids(a) + Ids(c)
  {
    forall x | x in Ids(a) + Ids(c) ensures x in Ids(a + c) {
      if x in Ids(a) {
        var i :| 0 <= i < |a| && a[i].id == x;
        assert (a + c)[i].id == x;
      } else {
        var i :| 0 <= i < |c| && c[i].id == x;
        assert (a + c)[|a| + i].id == x;
      }
    }
    forall x | x in Ids(a + c) ensures x in Ids(a) + Ids(c) {
      var i :| 0 <= i < |a + c| && (a + c)[i].id == x;
      if i < |a| {
        assert a[i].id == x;
      } else {
        assert c[i - |a|].id == x;
      }
    }
  }

  // ----- the batch append -----

  /** The linear-scan merge appends exactly the reference survivors of the batch. */
  lemma {:induction false} MesclarComoSobreviventes(b: seq<MensagemJson>, novas: seq<MensagemValor>)
    ensures Mesclar(b, novas) == b + Sobreviventes(Ids(b), novas)
    decreases |novas|
  {
    if novas != [] {
      var m := novas[0];
      IdsExiste(b, m.id);
      if ExisteId(b, m.id) {
        MesclarComoSobreviventes(b, novas[1..]);
      } else {
        var b' := b + [ParaJson(m)];
        IdsConcat(b, [ParaJson(m)]);
        IdsUnitario(ParaJson(m));
        MesclarComoSobreviventes(b', novas[1..]);
      }
    }
  }

  /** A batch adds at most one message per input. */
  lemma {:induction false} SobreviventesCota(vistos: set<string>, novas: seq<MensagemValor>)
    ensures |Sobreviventes(vistos, novas)| <= |novas|
    decreases |novas|
  {
    if novas != [] {
      if novas[0].id in vistos {
        SobreviventesCota(vistos, novas[1..]);
      } else {
        SobreviventesCota(vistos + {novas[0].id}, novas[1..]);
      }
    }
  }

  /** A batch adds no message whose identifier was already seen. */
  lemma {:induction false} SobreviventesNaoVistos(vistos: set<string>, novas: seq<MensagemValor>)
    ensures forall k :: 0 <= k < |Sobreviventes(vistos, novas)| ==> Sobreviventes(vistos, novas)[k].id !in vistos
    decreases |novas|
  {
    if novas != [] {
      var m, resto := novas[0], novas[1..];
      if m.id in vistos {
        SobreviventesNaoVistos(vistos, resto);
      } else {
        var s' := Sobreviventes(vistos + {m.id}, resto);
        SobreviventesNaoVistos(vistos + {m.id}, resto);
        assert Sobreviventes(vistos, novas) == [ParaJson(m)] + s';
      }
    }
  }

  /** A batch adds no identifier twice. */
  lemma {:induction false} SobreviventesIdsUnicos(vistos: set<string>, novas: seq<MensagemValor>)
    ensures IdsUnicos(Sobreviventes(vistos, novas))
    decreases |novas|
  {
    if novas != [] {
      var m, resto := novas[0], novas[1..];
      if m.id in vistos {
        SobreviventesIdsUnicos(vistos, resto);
      } else {
        var s := Sobreviventes(vistos, novas);
        var s' := Sobreviventes(vistos + {m.id}, resto);
        SobreviventesIdsUnicos(vistos + {m.id}, resto);
        SobreviventesNaoVistos(vistos + {m.id}, resto);
        assert s == [ParaJson(m)] + s';
        forall i, j | 0 <= i < j < |s| ensures s[i].id != s[j].id {
          assert s[j] == s'[j - 1];
          if i > 0 { assert s[i] == s'[i - 1]; }
        }
      }
    }
  }

  /** After a batch, every input's identifier was seen before or has been added. */
  lemma {:induction false} SobreviventesCobertura(vistos: set<string>, novas: seq<MensagemValor>)
    ensures forall j :: 0 <= j < |novas| ==> novas[j].id in vistos + Ids(Sobreviventes(vistos, novas))
    decreases |novas|
  {
    if novas != [] {
      var m, resto := novas[0], novas[1..];
      var s := Sobreviventes(vistos, novas);
      if m.id in vistos {
        SobreviventesCobertura(vistos, resto);
        forall j | 0 <= j < |novas| ensures novas[j].id in vistos + Ids(s) {
          if j > 0 { assert novas[j] == resto[j - 1]; }
        }
      } else {
        var s' := Sobreviventes(vistos + {m.id}, resto);
        SobreviventesCobertura(vistos + {m.id}, resto);
        assert s == [ParaJson(m)] + s';
        IdsConcat([ParaJson(m)], s');
        IdsUnitario(ParaJson(m));
        forall j | 0 <= j < |novas| ensures novas[j].id in vistos + Ids(s) {
          if j > 0 { assert novas[j] == resto[j - 1]; }
        }
      }
    }
  }

  /** Every message a batch adds is one of its inputs, as written. */
  lemma {:induction false} SobreviventesOrigem(vistos: set<string>, novas: seq<MensagemValor>)
    ensures forall k :: 0 <= k < |Sobreviventes(vistos, novas)| ==>
              exists j :: 0 <= j < |novas| && Sobreviventes(vistos, novas)[k] == ParaJson(novas[j])
    decreases |novas|
  {
    if novas == [] {
      assert Sobreviventes(vistos, novas) == [];
    } else {
      var m, resto := novas[0], novas[1..];
      var s := Sobreviventes(vistos, novas);
      if m.id in vistos {
        SobreviventesOrigem(vistos, resto);
        assert s == Sobreviventes(vistos, resto);
        forall k | 0 <= k < |s| ensures exists j :: 0 <= j < |novas| && s[k] == ParaJson(novas[j]) {
          var j :| 0 <= j < |resto| && s[k] == ParaJson(resto[j]);
          assert novas[j + 1] == resto[j];
        }
      } else {
        var s' := Sobreviventes(vistos + {m.id}, resto);
        SobreviventesOrigem(vistos + {m.id}, resto);
        assert s == [ParaJson(m)] + s';
        forall k | 0 <= k < |s| ensures exists j :: 0 <= j < |novas| && s[k] == ParaJson(novas[j]) {
          if k == 0 {
            assert s[k] == ParaJson(novas[0]);
          } else {
            assert s[k] == s'[k - 1];
            var j :| 0 <= j < |resto| && s'[k - 1] == ParaJson(resto[j]);
            assert novas[j + 1] == resto[j];
          }
        }
      }
    }
  }

  /**
   * What a batch adds: at most one message per input, none whose identifier
   * was already seen, no identifier twice, each one an input as written, and
   * afterwards every input's identifier is present.
   */
  lemma SobreviventesPropriedades(vistos: set<string>, novas: seq<MensagemValor>)
    ensures |Sobreviventes(vistos, novas)| <= |novas|
    ensures forall k :: 0 <= k < |Sobreviventes(vistos, novas)| ==> Sobreviventes(vistos, novas)[k].id !in vistos
    ensures IdsUnicos(Sobreviventes(vistos, novas))
    ensures forall j :: 0 <= j < |novas| ==> novas[j].id in vistos + Ids(Sobreviventes(vistos, novas))
    ensures forall k :: 0 <= k < |Sobreviventes(vistos, novas)| ==>
              exists j :: 0 <= j < |novas| && Sobreviventes(vistos, novas)[k] == ParaJson(novas[j])
  {
    SobreviventesCota(vistos, novas);
    SobreviventesNaoVistos(vistos, novas);
    SobreviventesIdsUnicos(vistos, novas);
    SobreviventesCobertura(vistos, novas);
    SobreviventesOrigem(vistos, novas);
  }

  /** A batch whose identifiers have all been seen adds nothing. */
  lemma {:induction false} SobreviventesSemNovos(vistos: set<string>, novas: seq<MensagemValor>)
    requires forall j :: 0 <= j < |novas| ==> novas[j].id in vistos
    ensures Sobreviventes(vistos, novas) == []
    decreases |novas|
  {
    if novas != [] {
      assert novas[0].id in vistos;
      SobreviventesSemNovos(vistos, novas[1..]);
    }
  }

  /** A batch of distinct, unseen identifiers is added whole and in order. */
  lemma {:induction false} SobreviventesTodosNovos(vistos: set<string>, novas: seq<MensagemValor>)
    requires forall j :: 0 <= j < |novas| ==> novas[j].id !in vistos
    requires forall i, j :: 0 <= i < j < |novas| ==> novas[i].id != novas[j].id
    ensures Sobreviventes(vistos, novas) == Serializar(novas)
    decreases |novas|
  {
    if novas != [] {
      var m, resto := novas[0], novas[1..];
      forall j | 0 <= j < |resto| ensures resto[j].id !in vistos + {m.id} {
        assert resto[j] == novas[j + 1];
      }
      SobreviventesTodosNovos(vistos + {m.id}, resto);
      assert Serializar(novas) == [ParaJson(m)] + Serializar(resto);
    }
  }

  /** Merging the same batch twice leaves what merging it once left. */
  lemma MesclarIdempotente(b: seq<MensagemJson>, novas: seq<MensagemValor>)
    ensures Mesclar(Mesclar(b, novas), novas) == Mesclar(b, novas)
  {
    var s := Sobreviventes(Ids(b), novas);
    MesclarComoSobreviventes(b, novas);
    SobreviventesPropriedades(Ids(b), novas);
    var ms := b + s;
    IdsConcat(b, s);
    MesclarComoSobreviventes(ms, novas);
    SobreviventesSemNovos(Ids(ms), novas);
  }

  /**
   * The batch append keeps the old board as a prefix, appends the reference
   * survivors after it, and raises the counter by their number.
   */
  lemma ComMensagensAnexaSobreviventes(q: Mural, novas: seq<MensagemValor>)
    ensures ComMensagens(q, novas).mensagens == q.mensagens + Sobreviventes(Ids(q.mensagens), novas)
    ensures ComMensagens(q, novas).contador == q.contador + |Sobreviventes(Ids(q.mensagens), novas)|
  {
    MesclarComoSobreviventes(q.mensagens, novas);
  }

  /** Appending the same batch twice leaves the board and counter of appending it once. */
  lemma ComMensagensIdempotente(q: Mural, novas: seq<MensagemValor>)
    ensures ComMensagens(ComMensagens(q, novas), novas) == ComMensagens(q, novas)
  {
    MesclarIdempotente(q.mensagens, novas);
  }

  /** The batch append never stores an identifier twice when the board had none twice. */
  lemma ComMensagensIdsUnicos(q: Mural, novas: seq<MensagemValor>)
    requires IdsUnicos(q.mensagens)
    ensures IdsUnicos(ComMensagens(q, novas).mensagens)
  {
    var b := q.mensagens;
    var s := Sobreviventes(Ids(b), novas);
    MesclarComoSobreviventes(b, novas);
    SobreviventesPropriedades(Ids(b), novas);
    var ms := b + s;
    forall i, j | 0 <= i < j < |ms| ensures ms[i].id != ms[j].id {
      if j >= |b| {
        assert ms[j] == s[j - |b|];
        if i < |b| {
          assert ms[i].id in Ids(b);
        } else {
          assert ms[i] == s[i - |b|];
        }
      }
    }
  }

  /** Both appends keep `contador == |mensagens|`, and a replace with the offered list's own length establishes it. */
  lemma ConsistenciaPreservada(q: Mural, m: MensagemValor, novas: seq<MensagemValor>, dados: seq<MensagemJson>)
    ensures Consistente(Vazio)
    ensures Consistente(q) ==> Consistente(ComMensagem(q, m))
    ensures Consistente(q) ==> Consistente(ComMensagens(q, novas))
    ensures Consistente(Substituido(dados, |dados|))
  {
  }

  // ----- reads -----

  /** The visibility filter returns exactly the stored messages whose visibility reads as `t`, each read with that visibility. */
  lemma {:induction false} PorTipoCaracterizacao(t: string, ms: seq<MensagemJson>)
    ensures |PorTipo(t, ms)| <= |ms|
    ensures forall k :: 0 <= k < |PorTipo(t, ms)| ==> PorTipo(t, ms)[k].tipo == Some(t)
    ensures forall v :: v in PorTipo(t, ms) <==>
              exists i :: 0 <= i < |ms| && TipoLido(ms[i].tipo) == t && v == Ler(ms[i])
    decreases |ms|
  {
    if ms != [] {
      var init, ultima := ms[..|ms| - 1], ms[|ms| - 1];
      PorTipoCaracterizacao(t, init);
      var r := PorTipo(t, ms);
      var extra := if TipoLido(ultima.tipo) == t then [Ler(ultima)] else [];
      assert r == PorTipo(t, init) + extra;
      forall v ensures v in r <==> exists i :: 0 <= i < |ms| && TipoLido(ms[i].tipo) == t && v == Ler(ms[i]) {
        if v in PorTipo(t, init) {
          var i :| 0 <= i < |init| && TipoLido(init[i].tipo) == t && v == Ler(init[i]);
          assert ms[i] == init[i];
        }
        if exists i :: 0 <= i < |ms| && TipoLido(ms[i].tipo) == t && v == Ler(ms[i]) {
          var i :| 0 <= i < |ms| && TipoLido(ms[i].tipo) == t && v == Ler(ms[i]);
          if i < |init| {
            assert ms[i] == init[i];
          } else {
            assert v in extra;
          }
        }
      }
    }
  }

  /** When every stored message reads as visibility `t`, the filter for `t` returns the whole board. */
  lemma {:induction false} PorTipoTodas(t: string, ms: seq<MensagemJson>)
    requires forall i :: 0 <= i < |ms| ==> TipoLido(ms[i].tipo) == t
    ensures PorTipo(t, ms) == Todas(ms)
    decreases |ms|
  {
    if ms != [] {
      var init := ms[..|ms| - 1];
      PorTipoTodas(t, init);
      assert Todas(ms) == Todas(init) + [Ler(ms[|ms| - 1])];
    }
  }

  /** When no stored message reads as visibility `t`, the filter for `t` returns nothing. */
  lemma {:induction false} PorTipoNenhuma(t: string, ms: seq<MensagemJson>)
    requires forall i :: 0 <= i < |ms| ==> TipoLido(ms[i].tipo) != t
    ensures PorTipo(t, ms) == []
    decreases |ms|
  {
    if ms != [] {
      PorTipoNenhuma(t, ms[..|ms| - 1]);
    }
  }

  /** A replaced board has lost every `tipo`: all its messages read back as public, none as private. */
  lemma SubstituidoLidoPublico(dados: seq<MensagemJson>, c: int)
    ensures forall i :: 0 <= i < |dados| ==> Todas(Substituido(dados, c).mensagens)[i].tipo == Some(TipoPublico)
    ensures PorTipo(TipoPublico, Substituido(dados, c).mensagens) == Todas(Substituido(dados, c).mensagens)
    ensures PorTipo("privada", Substituido(dados, c).mensagens) == []
  {
    var ms := Substituido(dados, c).mensagens;
    PorTipoTodas(TipoPublico, ms);
    PorTipoNenhuma("privada", ms);
  }

  /** The board object. */
  class MuralMensagens {
    var contador: int
    var mensagens: seq<MensagemJson>

    function Estado(): Mural
      reads this
    {
      Mural(contador, mensagens)
    }

    /** A node with no board file starts from counter 0 and no messages. */
    constructor ()
      ensures Estado() == Vazio
    {
      contador := 0;
      mensagens := [];
    }

    /** Appends one message at the end, without checking its identifier. */
    method AdicionarMensagem(mensagem: MensagemValor)
      modifies this
      ensures Estado() == ComMensagem(old(Estado()), mensagem)
      ensures old(Consistente(Estado())) ==> Consistente(Estado())
    {
      mensagens := mensagens + [ParaJson(mensagem)];
      contador := contador + 1;
    }

    /** Appends, in order, the messages whose identifier is not yet on the (growing) board. */
    method AdicionarMensagens(novasMensagens: seq<MensagemValor>)
      modifies this
      ensures Estado() == ComMensagens(old(Estado()), novasMensagens)
      ensures old(Consistente(Estado())) ==> Consistente(Estado())
    {
      var c := contador;
      var i := 0;
      while i < |novasMensagens|
        invariant 0 <= i <= |novasMensagens|
        invariant Mesclar(mensagens, novasMensagens[i..]) == Mesclar(old(mensagens), novasMensagens)
        invariant c - |mensagens| == old(contador) - |old(mensagens)|
        invariant contador == old(contador)
      {
        var mensagem := novasMensagens[i];
        var existe := MensagemExisteNoJson(mensagens, mensagem.id);
        if !existe {
          mensagens := mensagens + [ParaJson(mensagem)];
          c := c + 1;
        }
        assert novasMensagens[i..][1..] == novasMensagens[i + 1..];
        i := i + 1;
      }
      contador := c;
    }

    /** Linear scan for a stored message with identifier `id`. */
    static method MensagemExisteNoJson(ms: seq<MensagemJson>, id: string) returns (existe: bool)
      ensures existe <==> ExisteId(ms, id)
    {
      var i := 0;
      while i < |ms|
        invariant 0 <= i <= |ms|
        invariant forall j :: 0 <= j < i ==> ms[j].id != id
      {
        if ms[i].id == id {
          return true;
        }
        i := i + 1;
      }
      return false;
    }

    /** Discards the board: the offered messages, without `tipo`, and the offered counter. */
    method SubstituirMural(mensagensData: seq<MensagemJson>, novoContador: int)
      modifies this
      ensures Estado() == Substituido(mensagensData, novoContador)
    {
      var novasMensagens: seq<MensagemJson> := [];
      var i := 0;
      while i < |mensagensData|
        invariant 0 <= i <= |mensagensData|
        invariant novasMensagens == SemTipo(mensagensData[..i])
      {
        var d := mensagensData[i];
        novasMensagens := novasMensagens + [MensagemJson(d.id, d.conteudo, d.autor, d.timestamp, d.lamportClock, Ausente)];
        assert SemTipo(mensagensData[..i + 1]) == SemTipo(mensagensData[..i]) + [d.(tipo := Ausente)];
        i := i + 1;
      }
      assert mensagensData[..i] == mensagensData;
      contador := novoContador;
      mensagens := novasMensagens;
    }

    /**
     * The messages at indices `contadorInicial` and later, each read as public;
     * a negative index makes the read throw, modelled as `None`.
     */
    method GetMensagensAPartirDe(contadorInicial: int) returns (r: Option<seq<MensagemValor>>)
      ensures r.None? <==> contadorInicial < 0
      ensures r.Some? ==> r.value == Sufixo(mensagens, contadorInicial)
      ensures r.Some? ==> |r.value| == (if contadorInicial <= |mensagens| then |mensagens| - contadorInicial else 0)
      ensures r.Some? ==> forall j :: 0 <= j < |r.value| ==> r.value[j] == LerPublica(mensagens[contadorInicial + j])
    {
      if contadorInicial < 0 {
        return None;
      }
      var resultado: seq<MensagemValor> := [];
      var i := contadorInicial;
      while i < |mensagens|
        invariant contadorInicial <= i
        invariant i == contadorInicial || i <= |mensagens|
        invariant |resultado| == i - contadorInicial
        invariant forall j :: 0 <= j < |resultado| ==> resultado[j] == LerPublica(mensagens[contadorInicial + j])
      {
        resultado := resultado + [LerPublica(mensagens[i])];
        i := i + 1;
      }
      return Some(resultado);
    }

    /** The messages whose visibility reads as `tipo` (a missing field reads "publica"), in board order. */
    method GetMensagensPorTipo(tipo: string) returns (r: seq<MensagemValor>)
      ensures r == PorTipo(tipo, mensagens)
      ensures forall k :: 0 <= k < |r| ==> r[k].tipo == Some(tipo)
    {
      r := [];
      var i := 0;
      while i < |mensagens|
        invariant 0 <= i <= |mensagens|
        invariant r == PorTipo(tipo, mensagens[..i])
      {
        var e := mensagens[i];
        var tipoMensagem := TipoLido(e.tipo);
        assert mensagens[..i + 1][..i] == mensagens[..i];
        if tipo == tipoMensagem {
          r := r + [Ler(e)];
        }
        i := i + 1;
      }
      assert mensagens[..i] == mensagens;
      PorTipoCaracterizacao(tipo, mensagens);
    }

    method GetContador() returns (c: int)
      ensures c == contador
    {
      c := contador;
    }

    /** Every stored message in board order, each read with its visibility. */
    method GetMensagens() returns (r: seq<MensagemValor>)
      ensures |r| == |mensagens|
      ensures forall j :: 0 <= j < |r| ==> r[j] == Ler(mensagens[j])
    {
      r := [];
      var i := 0;
      while i < |mensagens|
        invariant 0 <= i <= |mensagens|
        invariant |r| == i
        invariant forall j :: 0 <= j < i ==> r[j] == Ler(mensagens[j])
      {
        r := r + [Ler(mensagens[i])];
        i := i + 1;
      }
    }
  }
}

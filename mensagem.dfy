/**
 * One message of the board: the `Mensagem` bean, the JSON object that the board
 * file and the wire carry for it, and the conversions between the two.
 */
module Mensagens {
  import opened Wrappers

  /** The visibility a message gets when none is given. */
  const TipoPublico: string := "publica"

  /** A JSON field that holds a string: missing from the object, JSON `null`, or text. */
  datatype Campo = Ausente | Nulo | Texto(texto: string)

  /** A message as one JSON object, as stored in the board file or sent on the wire. */
  datatype MensagemJson = MensagemJson(
    id: string, conteudo: string, autor: string, timestamp: string, lamportClock: int, tipo: Campo)

  /** The six fields of a `Mensagem` object at one moment; `tipo` is a nullable string. */
  datatype MensagemValor = MensagemValor(
    id: string, conteudo: string, autor: string, timestamp: string, lamportClock: int, tipo: Option<string>)

  /** `ObjectNode.put` of a nullable string: `null` is stored as a JSON `null`. */
  function CampoDe(s: Option<string>): Campo {
    match s
    case None => Nulo
    case Some(t) => Texto(t)
  }

  /** How the board reads `tipo` back: a missing field is "publica", and a JSON `null` reads as the text "null". */
  function TipoLido(c: Campo): string {
    match c
    case Ausente => TipoPublico
    case Nulo => "null"
    case Texto(t) => t
  }

  /** The JSON object the board writes for a message: all six fields, `tipo` included. */
  function ParaJson(m: MensagemValor): MensagemJson {
    MensagemJson(m.id, m.conteudo, m.autor, m.timestamp, m.lamportClock, CampoDe(m.tipo))
  }

  /** A stored object read back through the five-argument constructor, keeping the stored `tipo`. */
  function Ler(e: MensagemJson): MensagemValor {
    MensagemValor(e.id, e.conteudo, e.autor, e.timestamp, e.lamportClock, Some(TipoLido(e.tipo)))
  }

  /** A stored object read back through the four-argument constructor, which always says "publica". */
  function LerPublica(e: MensagemJson): MensagemValor {
    MensagemValor(e.id, e.conteudo, e.autor, e.timestamp, e.lamportClock, Some(TipoPublico))
  }

  /** Writing a message and reading it back gives it back exactly when its `tipo` is not null. */
  lemma LerParaJson(m: MensagemValor)
    ensures Ler(ParaJson(m)) == m <==> m.tipo.Some?
    ensures m.tipo.None? ==> Ler(ParaJson(m)).tipo == Some("null")
  {
  }

  /** Reading a stored object and writing it again gives it back exactly when its `tipo` field is text. */
  lemma ParaJsonLer(e: MensagemJson)
    ensures ParaJson(Ler(e)) == e <==> e.tipo.Texto?
  {
  }

  /** The `Mensagem` bean: every field can be set after construction. */
  class Mensagem {
    var id: string
    var conteudo: string
    var autor: string
    var timestamp: string
    var lamportClock: int
    var tipo: Option<string>

    /** All six fields at once; the getters each return one of them. */
    function Valor(): MensagemValor
      reads this
    {
      MensagemValor(id, conteudo, autor, timestamp, lamportClock, tipo)
    }

    /** The four-argument constructor: the message is public and stamped with the wall-clock reading `agora`. */
    constructor Publica(id: string, conteudo: string, autor: string, lamportClock: int, agora: string)
      ensures Valor() == MensagemValor(id, conteudo, autor, agora, lamportClock, Some(TipoPublico))
    {
      this.id := id;
      this.conteudo := conteudo;
      this.autor := autor;
      this.lamportClock := lamportClock;
      this.tipo := Some(TipoPublico);
      this.timestamp := agora;
    }

    /** The five-argument constructor: stores the given `tipo`, which may be null. */
    constructor (id: string, conteudo: string, autor: string, lamportClock: int, tipo: Option<string>, agora: string)
      ensures Valor() == MensagemValor(id, conteudo, autor, agora, lamportClock, tipo)
    {
      this.id := id;
      this.conteudo := conteudo;
      this.autor := autor;
      this.lamportClock := lamportClock;
      this.tipo := tipo;
      this.timestamp := agora;
    }

    method SetId(id: string)
      modifies this
      ensures Valor() == old(Valor()).(id := id)
    {
      this.id := id;
    }

    method SetConteudo(conteudo: string)
      modifies this
      ensures Valor() == old(Valor()).(conteudo := conteudo)
    {
      this.conteudo := conteudo;
    }

    method SetAutor(autor: string)
      modifies this
      ensures Valor() == old(Valor()).(autor := autor)
    {
      this.autor := autor;
    }

    method SetTimestamp(timestamp: string)
      modifies this
      ensures Valor() == old(Valor()).(timestamp := timestamp)
    {
      this.timestamp := timestamp;
    }

    method SetLamportClock(lamportClock: int)
      modifies this
      ensures Valor() == old(Valor()).(lamportClock := lamportClock)
    {
      this.lamportClock := lamportClock;
    }

    method SetTipo(tipo: Option<string>)
      modifies this
      ensures Valor() == old(Valor()).(tipo := tipo)
    {
      this.tipo := tipo;
    }

    /** The visibility tag `toString` prints: public only for the exact text "publica", private for null and anything else. */
    function Indicador(): (r: string)
      reads this
      ensures r == "[PÚBLICA]" <==> tipo == Some(TipoPublico)
      ensures r == "[PRIVADA]" <==> tipo != Some(TipoPublico)
    {
      if tipo == Some(TipoPublico) then "[PÚBLICA]" else "[PRIVADA]"
    }
  }
}

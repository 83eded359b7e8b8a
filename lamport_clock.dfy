/**
 * The node's Lamport logical clock: one integer that local events advance by
 * one and that a received timestamp pushes past itself.
 */
module Lamport {

  /** A call that advances the clock: `tick()` or `update(t)`. */
  datatype Evento = Tick | Update(t: int)

  /** The value a call sets and returns, from clock value `c`. */
  function Passo(c: int, e: Evento): (r: int)
    ensures r > c
    ensures e.Update? ==> r > e.t
    ensures e.Tick? ==> r == c + 1
    ensures e.Update? ==> r == c + 1 || r == e.t + 1
  {
    match e
    case Tick => c + 1
    case Update(t) => (if c >= t then c else t) + 1
  }

  /** The values returned by running `es` in order on a clock that starts at `c`. */
  function Retornos(c: int, es: seq<Evento>): seq<int>
    decreases |es|
  {
    if es == [] then [] else [Passo(c, es[0])] + Retornos(Passo(c, es[0]), es[1..])
  }

  /** Without `setTime`, the returned values rise strictly, all exceed the start value, and each update's exceeds its timestamp. */
  lemma {:induction false} RetornosCrescentes(c: int, es: seq<Evento>)
    ensures |Retornos(c, es)| == |es|
    ensures forall i :: 0 <= i < |es| ==> Retornos(c, es)[i] > c
    ensures forall i, j :: 0 <= i < j < |es| ==> Retornos(c, es)[i] < Retornos(c, es)[j]
    ensures forall i :: 0 <= i < |es| && es[i].Update? ==> Retornos(c, es)[i] > es[i].t
    decreases |es|
  {
    if es != [] {
      var c' := Passo(c, es[0]);
      RetornosCrescentes(c', es[1..]);
      var r := Retornos(c, es);
      assert r == [c'] + Retornos(c', es[1..]);
      forall i, j | 0 <= i < j < |es| ensures r[i] < r[j] {
        if i > 0 {
          assert r[i] == Retornos(c', es[1..])[i - 1];
        }
      }
      forall i | 0 <= i < |es| && es[i].Update? ensures r[i] > es[i].t {
        if i > 0 {
          assert es[i] == es[1..][i - 1];
        }
      }
    }
  }

  /** The clock object; the source holds its value in an atomic integer. */
  class LamportClock {
    var clock: int

    constructor ()
      ensures clock == 0
    {
      clock := 0;
    }

    constructor ComValor(valorInicial: int)
      ensures clock == valorInicial
    {
      clock := valorInicial;
    }

    method Tick() returns (r: int)
      modifies this
      ensures r == old(clock) + 1 && r == Passo(old(clock), Evento.Tick)
      ensures clock == r
    {
      clock := clock + 1;
      r := clock;
    }

    method Update(timestampRecebido: int) returns (r: int)
      modifies this
      ensures r == Passo(old(clock), Evento.Update(timestampRecebido))
      ensures r > old(clock) && r > timestampRecebido
      ensures clock == r
    {
      var valorAtual := clock;
      var novoValor := (if valorAtual >= timestampRecebido then valorAtual else timestampRecebido) + 1;
      clock := novoValor;
      r := novoValor;
    }

    method GetTime() returns (r: int)
      ensures r == clock
    {
      r := clock;
    }

    method SetTime(novoValor: int)
      modifies this
      ensures clock == novoValor
    {
      clock := novoValor;
    }
  }

  /** `setTime` can move the clock back, so a later `tick` may return less than an earlier one. */
  method SetTimeQuebraMonotonia() returns (antes: int, depois: int)
    ensures depois < antes
  {
    var relogio := new LamportClock();
    antes := relogio.Tick();
    relogio.SetTime(-5);
    depois := relogio.Tick();
  }
}

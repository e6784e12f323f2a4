/** The app's session state: the bounded result history and the hit/miss scoreboard. */
module Session {
  import opened Symbols
  import opened Detector

  /** The history is a `deque(maxlen=27)`. */
  const MaxHistory: nat := 27

  function Min(a: int, b: int): int {
    if a < b then a else b
  }

  /**
   * What appending `x` leaves in a deque bounded at `MaxHistory`: the newest
   * entries of `h + [x]`, at most `MaxHistory` of them.
   */
  function BoundedAppend(h: seq<Symbol>, x: Symbol): (r: seq<Symbol>)
    ensures |r| == Min(|h| + 1, MaxHistory)
    ensures r[|r| - 1] == x
    ensures r[..|r| - 1] == h[|h| - Min(|h|, MaxHistory - 1)..]
  {
    var all := h + [x];
    all[|all| - Min(|all|, MaxHistory)..]
  }

  /** The history after appending `results` one by one to an empty deque. */
  function Replay(results: seq<Symbol>): seq<Symbol> {
    if results == [] then []
    else BoundedAppend(Replay(results[..|results| - 1]), results[|results| - 1])
  }

  /** However many results were appended, the history is exactly the newest 27 of them, in order. */
  lemma {:induction false} ReplayKeepsNewest(results: seq<Symbol>)
    ensures Replay(results) == results[|results| - Min(|results|, MaxHistory)..]
    decreases |results|
  {
    if results != [] {
      var init, x := results[..|results| - 1], results[|results| - 1];
      ReplayKeepsNewest(init);
      var a := |init| - Min(|init|, MaxHistory);
      var all := init[a..] + [x];
      assert init + [x] == results;
      assert all == results[a..];
      var b := |all| - Min(|all|, MaxHistory);
      assert a + b == |results| - Min(|results|, MaxHistory);
      assert all[b..] == results[a + b..];
    }
  }

  /** One element of `entradas`: the clock reading and the symbol the user registered. */
  datatype Entry = Entry(timestamp: real, color: Symbol)

  class Session {
    /** `st.session_state.historico`, oldest entry first. */
    var historico: seq<Symbol>
    /** `st.session_state.entradas`. */
    var entradas: seq<Entry>
    /** `st.session_state.acertos`: registered entries equal to the newest result. */
    var acertos: nat
    /** `st.session_state.erros`: registered entries that differed from it. */
    var erros: nat

    /** The deque's bound holds, and each registered entry counted at most once. */
    ghost predicate Valid()
      reads this
    {
      |historico| <= MaxHistory && acertos + erros <= |entradas|
    }

    /** The state the session starts with. */
    constructor ()
      ensures Valid()
      ensures historico == [] && entradas == [] && acertos == 0 && erros == 0
    {
      historico := [];
      entradas := [];
      acertos := 0;
      erros := 0;
    }

    /** A result button: `historico.append(r)` on the bounded deque, dropping the oldest when full. */
    method AppendResult(r: Symbol)
      requires Valid()
      modifies this
      ensures Valid()
      ensures historico == BoundedAppend(old(historico), r)
      ensures entradas == old(entradas) && acertos == old(acertos) && erros == old(erros)
    {
      if |historico| == MaxHistory {
        historico := historico[1..];
      }
      historico := historico + [r];
    }

    /**
     * `registrar_entrada(cor)`, with `now` standing for `time.time()`: records
     * the entry, then, if there is a newest result, counts a hit when the entry
     * equals it and a miss otherwise.
     */
    method RegistrarEntrada(cor: Symbol, now: real)
      requires Valid()
      modifies this
      ensures Valid()
      ensures entradas == old(entradas) + [Entry(now, cor)]
      ensures historico == old(historico)
      ensures historico == [] ==> acertos == old(acertos) && erros == old(erros)
      ensures historico != [] && cor == historico[|historico| - 1] ==>
                acertos == old(acertos) + 1 && erros == old(erros)
      ensures historico != [] && cor != historico[|historico| - 1] ==>
                erros == old(erros) + 1 && acertos == old(acertos)
    {
      entradas := entradas + [Entry(now, cor)];
      if |historico| == 0 {
        return;
      }
      var ultimo := historico[|historico| - 1];
      if cor == ultimo {
        acertos := acertos + 1;
      } else {
        erros := erros + 1;
      }
    }

    /** `gerar_sugestao()` on the current history. */
    method GerarSugestao() returns (s: Suggestion)
      ensures s == Suggest(historico)
    {
      if |historico| < MinHistory {
        return Insufficient;
      }
      var d := DetectPatterns(historico);
      s := Suggestion(d.color, d.confidence, d.reason);
    }
  }
}

/**
 * The thirty pattern rules of `detect_patterns`, each as the list of matches
 * its `if` block appends, and the catalogue as all of them in declaration order.
 */
module Patterns {
  import opened Symbols
  import opened Slices

  /** One constructor per numbered rule of the source, in declaration order. */
  datatype Rule =
    | SequenciaCrescente        // 1
    | AlternanciaSimples        // 2
    | EmpateAposAlternancia     // 3
    | DoisPorDoisAlternado      // 4
    | CasaEmpateCasa            // 5
    | PalindromoCinco           // 6
    | ColunaRepetida            // 7
    | ReescritaVertical         // 8
    | TrocaDePaleta             // 9
    | EspelhamentoDeLinhas      // 10
    | ColunaUmIgualCinco        // 11
    | LoopCCE                   // 12
    | DisfarceDeDominancia      // 13
    | ReinicioDominante         // 14
    | EmpateEstruturado         // 15
    | LoopEVC                   // 16
    | ReescritaDeslocada        // 17
    | ColunasIntercaladasIguais // 18
    | LinhaTresEspelhaLinhaUm   // 19
    | RepeticaoComDesvio        // 20
    | EmpateDisfarcado          // 21
    | QuebraDeDominancia        // 22
    | EmpatePosDominancia       // 23
    | DoisSeguidoDeInverso      // 24
    | DoisUmDois                // 25
    | ColunaEscada              // 26
    | InversaoFrequente         // 27
    | EVCEmLoop                 // 28
    | EmpateIntervalado         // 29
    | SimetriaIrregular         // 30
  {
    /** The rule's number in the source's catalogue. */
    function Number(): nat {
      match this
      case SequenciaCrescente => 1
      case AlternanciaSimples => 2
      case EmpateAposAlternancia => 3
      case DoisPorDoisAlternado => 4
      case CasaEmpateCasa => 5
      case PalindromoCinco => 6
      case ColunaRepetida => 7
      case ReescritaVertical => 8
      case TrocaDePaleta => 9
      case EspelhamentoDeLinhas => 10
      case ColunaUmIgualCinco => 11
      case LoopCCE => 12
      case DisfarceDeDominancia => 13
      case ReinicioDominante => 14
      case EmpateEstruturado => 15
      case LoopEVC => 16
      case ReescritaDeslocada => 17
      case ColunasIntercaladasIguais => 18
      case LinhaTresEspelhaLinhaUm => 19
      case RepeticaoComDesvio => 20
      case EmpateDisfarcado => 21
      case QuebraDeDominancia => 22
      case EmpatePosDominancia => 23
      case DoisSeguidoDeInverso => 24
      case DoisUmDois => 25
      case ColunaEscada => 26
      case InversaoFrequente => 27
      case EVCEmLoop => 28
      case EmpateIntervalado => 29
      case SimetriaIrregular => 30
    }

    /** The name the source reports for the rule. */
    function Name(): string {
      match this
      case SequenciaCrescente => "Sequência Crescente"
      case AlternanciaSimples => "Alternância Simples"
      case EmpateAposAlternancia => "Empate após alternância"
      case DoisPorDoisAlternado => "2x2 alternado"
      case CasaEmpateCasa => "Casa-Empate-Casa"
      case PalindromoCinco => "Palíndromo 5 posições"
      case ColunaRepetida => "Coluna repetida"
      case ReescritaVertical => "Reescrita Vertical"
      case TrocaDePaleta => "Troca de paleta"
      case EspelhamentoDeLinhas => "Espelhamento de Linhas"
      case ColunaUmIgualCinco => "Coluna 1 = Coluna 5"
      case LoopCCE => "Loop CCE"
      case DisfarceDeDominancia => "Disfarce de Dominância"
      case ReinicioDominante => "Reinício Dominante"
      case EmpateEstruturado => "Empate Estruturado"
      case LoopEVC => "Loop EVC"
      case ReescritaDeslocada => "Reescrita Deslocada"
      case ColunasIntercaladasIguais => "Colunas Intercaladas Iguais"
      case LinhaTresEspelhaLinhaUm => "Linha 3 espelha Linha 1 invertida"
      case RepeticaoComDesvio => "4x Repetição com Desvio"
      case EmpateDisfarcado => "Empate Disfarçado"
      case QuebraDeDominancia => "Quebra de Dominância"
      case EmpatePosDominancia => "Empate pós-dominância"
      case DoisSeguidoDeInverso => "2x seguido de inverso"
      case DoisUmDois => "Padrão 2-1-2"
      case ColunaEscada => "Coluna Escada"
      case InversaoFrequente => "Inversão frequente"
      case EVCEmLoop => "EVC em loop"
      case EmpateIntervalado => "Empate Intervalado"
      case SimetriaIrregular => "Simetria Irregular"
    }

    /** The rule's fixed confidence, in hundredths (0.75 is 75). */
    function Confidence(): (c: nat)
      ensures 65 <= c <= 86
    {
      match this
      case SequenciaCrescente => 75
      case AlternanciaSimples => 65
      case EmpateAposAlternancia => 68
      case DoisPorDoisAlternado => 70
      case CasaEmpateCasa => 72
      case PalindromoCinco => 66
      case ColunaRepetida => 80
      case ReescritaVertical => 85
      case TrocaDePaleta => 78
      case EspelhamentoDeLinhas => 82
      case ColunaUmIgualCinco => 83
      case LoopCCE => 77
      case DisfarceDeDominancia => 70
      case ReinicioDominante => 76
      case EmpateEstruturado => 74
      case LoopEVC => 73
      case ReescritaDeslocada => 75
      case ColunasIntercaladasIguais => 86
      case LinhaTresEspelhaLinhaUm => 81
      case RepeticaoComDesvio => 74
      case EmpateDisfarcado => 72
      case QuebraDeDominancia => 74
      case EmpatePosDominancia => 73
      case DoisSeguidoDeInverso => 75
      case DoisUmDois => 76
      case ColunaEscada => 72
      case InversaoFrequente => 71
      case EVCEmLoop => 83
      case EmpateIntervalado => 76
      case SimetriaIrregular => 77
    }
  }

  /**
   * The tuple `(name, suggested symbol, confidence, reason)` one rule appends;
   * the name is `rule.Name()`.
   */
  datatype Match = Match(rule: Rule, color: Symbol, confidence: nat, reason: string)

  /** The symbol a firing rule suggests and the reason it gives. */
  datatype Hit = Hit(color: Symbol, reason: string)

  /** The one-element list a firing rule appends, at the rule's fixed confidence. */
  function Found(rule: Rule, color: Symbol, reason: string): seq<Match> {
    [Match(rule, color, rule.Confidence(), reason)]
  }

  /** The rules in the order in which `detect_patterns` evaluates them. */
  const Declared: seq<Rule> := [
    SequenciaCrescente, AlternanciaSimples, EmpateAposAlternancia, DoisPorDoisAlternado,
    CasaEmpateCasa, PalindromoCinco, ColunaRepetida, ReescritaVertical, TrocaDePaleta,
    EspelhamentoDeLinhas, ColunaUmIgualCinco, LoopCCE, DisfarceDeDominancia,
    ReinicioDominante, EmpateEstruturado, LoopEVC, ReescritaDeslocada,
    ColunasIntercaladasIguais, LinhaTresEspelhaLinhaUm, RepeticaoComDesvio,
    EmpateDisfarcado, QuebraDeDominancia, EmpatePosDominancia, DoisSeguidoDeInverso,
    DoisUmDois, ColunaEscada, InversaoFrequente, EVCEmLoop, EmpateIntervalado,
    SimetriaIrregular
  ]

  /** The absolute positions, counted from the oldest entry, that rule 15 inspects. */
  const TiePositions: seq<nat> := [5, 14, 23]

  /** `range(-15, 0, 5)`: the negative indices that rule 29 inspects. */
  const IntervalIndices: seq<int> := [-15, -10, -5]

  /** The reason rule 15 gives for a tie found at (zero-based) position `i`. */
  function StructuredTieReason(i: nat): string {
    "Empate recorrente na posição " + Decimal(i + 1)
  }

  /** One iteration of `for i in [5, 14, 23]`: the match appended for position `i`, if any. */
  function StructuredTieAt(h: seq<Symbol>, i: nat): seq<Match> {
    if |h| > i && h[i] == E then Found(EmpateEstruturado, E, StructuredTieReason(i)) else []
  }

  /** The matches rule 15 appends while visiting `positions` in order. */
  function StructuredTies(h: seq<Symbol>, positions: seq<nat>): seq<Match> {
    if positions == [] then []
    else StructuredTies(h, positions[..|positions| - 1]) + StructuredTieAt(h, positions[|positions| - 1])
  }

  /** `[i for i in indices if hist[i] == "E"]`. */
  function TiesAmong(h: seq<Symbol>, indices: seq<int>): seq<int>
    requires forall k :: 0 <= k < |indices| ==> -|h| <= indices[k] < |h|
  {
    if indices == [] then []
    else (if At(h, indices[0]) == E then [indices[0]] else []) + TiesAmong(h, indices[1..])
  }

  /**
   * `Counter(w).most_common(1)[0][0]`: a symbol of highest count; among several,
   * the one that occurs first in `w` (Counter keeps first-insertion order and
   * `max` keeps the first of equal keys).
   */
  function MostCommon(w: seq<Symbol>): Symbol
    requires w != []
  {
    w[MostCommonFrom(w, 1, 0)]
  }

  /** `MostCommon` occurs in `w`, is of highest count, and occurs first among symbols of that count. */
  lemma MostCommonIsFirstMostCommon(w: seq<Symbol>)
    requires w != []
    ensures MostCommon(w) in w
    ensures forall j :: 0 <= j < |w| ==> Count(w, w[j]) <= Count(w, MostCommon(w))
    ensures forall j :: 0 <= j < |w| && Count(w, w[j]) == Count(w, MostCommon(w)) ==> MostCommon(w) in w[..j + 1]
  {
    MostCommonFromIsFirst(w, 1, 0);
    FirstMostCommonOccursFirst(w, MostCommonFrom(w, 1, 0));
  }

  /**
   * Position `p` holds a symbol of highest count in `w`, and every earlier
   * position holds a symbol of strictly lower count.
   */
  ghost predicate IsFirstMostCommon(w: seq<Symbol>, p: nat) {
    && p < |w|
    && (forall j :: 0 <= j < |w| ==> Count(w, w[j]) <= Count(w, w[p]))
    && (forall j :: 0 <= j < p ==> Count(w, w[j]) < Count(w, w[p]))
  }

  /**
   * The scan behind `MostCommon`: `p` is the position of the first most common
   * symbol seen in `w[..i]`; a later symbol takes over only with a strictly
   * higher count.
   */
  function MostCommonFrom(w: seq<Symbol>, i: nat, p: nat): (r: nat)
    requires p < i <= |w|
    ensures r < |w|
    decreases |w| - i
  {
    if i == |w| then p
    else MostCommonFrom(w, i + 1, if Count(w, w[i]) > Count(w, w[p]) then i else p)
  }

  /** What the scan keeps true of `p`, from `w[..i]` to all of `w`. */
  lemma {:induction false} MostCommonFromIsFirst(w: seq<Symbol>, i: nat, p: nat)
    requires p < i <= |w|
    requires forall j :: 0 <= j < i ==> Count(w, w[j]) <= Count(w, w[p])
    requires forall j :: 0 <= j < p ==> Count(w, w[j]) < Count(w, w[p])
    ensures IsFirstMostCommon(w, MostCommonFrom(w, i, p))
    decreases |w| - i
  {
    if i < |w| {
      MostCommonFromIsFirst(w, i + 1, if Count(w, w[i]) > Count(w, w[p]) then i else p);
    }
  }

  /** The first most common position is also the first occurrence of its symbol among its equals. */
  lemma FirstMostCommonOccursFirst(w: seq<Symbol>, p: nat)
    requires IsFirstMostCommon(w, p)
    ensures forall j :: 0 <= j < |w| && Count(w, w[j]) == Count(w, w[p]) ==> w[p] in w[..j + 1]
  {
    forall j | 0 <= j < |w| && Count(w, w[j]) == Count(w, w[p])
      ensures w[p] in w[..j + 1]
    {
      assert w[..j + 1][p] == w[p];
    }
  }

  /**
   * The decision of the `if` block of a rule other than 15, which appends at
   * most one match: the suggested symbol and the reason when the rule fires on
   * history `h` (newest entry last). Every index and slice is guarded as in the
   * source, so this is defined for histories of every length.
   */
  function Verdict(rule: Rule, h: seq<Symbol>): Option<Hit>
    requires rule != EmpateEstruturado
  {
    match rule
    case SequenciaCrescente => VerdictSequenciaCrescente(h)
    case AlternanciaSimples => VerdictAlternanciaSimples(h)
    case EmpateAposAlternancia => VerdictEmpateAposAlternancia(h)
    case DoisPorDoisAlternado => VerdictDoisPorDoisAlternado(h)
    case CasaEmpateCasa => VerdictCasaEmpateCasa(h)
    case PalindromoCinco => VerdictPalindromoCinco(h)
    case ColunaRepetida => VerdictColunaRepetida(h)
    case ReescritaVertical => VerdictReescritaVertical(h)
    case TrocaDePaleta => VerdictTrocaDePaleta(h)
    case EspelhamentoDeLinhas => VerdictEspelhamentoDeLinhas(h)
    case ColunaUmIgualCinco => VerdictColunaUmIgualCinco(h)
    case LoopCCE => VerdictLoopCCE(h)
    case DisfarceDeDominancia => VerdictDisfarceDeDominancia(h)
    case ReinicioDominante => VerdictReinicioDominante(h)
    case LoopEVC => VerdictLoopEVC(h)
    case ReescritaDeslocada => VerdictReescritaDeslocada(h)
    case ColunasIntercaladasIguais => VerdictColunasIntercaladasIguais(h)
    case LinhaTresEspelhaLinhaUm => VerdictLinhaTresEspelhaLinhaUm(h)
    case RepeticaoComDesvio => VerdictRepeticaoComDesvio(h)
    case EmpateDisfarcado => VerdictEmpateDisfarcado(h)
    case QuebraDeDominancia => VerdictQuebraDeDominancia(h)
    case EmpatePosDominancia => VerdictEmpatePosDominancia(h)
    case DoisSeguidoDeInverso => VerdictDoisSeguidoDeInverso(h)
    case DoisUmDois => VerdictDoisUmDois(h)
    case ColunaEscada => VerdictColunaEscada(h)
    case InversaoFrequente => VerdictInversaoFrequente(h)
    case EVCEmLoop => VerdictEVCEmLoop(h)
    case EmpateIntervalado => VerdictEmpateIntervalado(h)
    case SimetriaIrregular => VerdictSimetriaIrregular(h)
  }

  /** Rule 1, "Sequência Crescente". */
  function VerdictSequenciaCrescente(h: seq<Symbol>): Option<Hit> {
    if |h| >= 3 && Back(h, 1) == Back(h, 2) && Back(h, 2) == Back(h, 3) && Back(h, 3) != E
    then Some(Hit(Back(h, 1), "3 repetições seguidas detectadas")) else None
  }

  /** Rule 2, "Alternância Simples". */
  function VerdictAlternanciaSimples(h: seq<Symbol>): Option<Hit> {
    if |h| >= 4 && Back(h, 1) != Back(h, 2) && Back(h, 2) != Back(h, 3) && Back(h, 3) != Back(h, 4)
    then Some(Hit(Back(h, 1), "Alternância em 4 posições")) else None
  }

  /** Rule 3, "Empate após alternância". */
  function VerdictEmpateAposAlternancia(h: seq<Symbol>): Option<Hit> {
    if |h| >= 3 && Back(h, 1) == E && Back(h, 2) != Back(h, 3)
    then Some(Hit(E, "Empate surge após troca de lados")) else None
  }

  /** Rule 4, "2x2 alternado". */
  function VerdictDoisPorDoisAlternado(h: seq<Symbol>): Option<Hit> {
    if EndsWith(h, [C, C, V, V]) || EndsWith(h, [V, V, C, C])
    then Some(Hit(Back(h, 1), "Sequência 2x2 detectada")) else None
  }

  /** Rule 5, "Casa-Empate-Casa". */
  function VerdictCasaEmpateCasa(h: seq<Symbol>): Option<Hit> {
    if EndsWith(h, [C, E, C])
    then Some(Hit(C, "Empate cercado por Casa")) else None
  }

  /** Rule 6, "Palíndromo 5 posições". */
  function VerdictPalindromoCinco(h: seq<Symbol>): Option<Hit> {
    if |h| >= 5 && Back(h, 5) == Back(h, 1) && Back(h, 4) == Back(h, 2)
    then Some(Hit(Back(h, 1), "Sequência simétrica detectada")) else None
  }

  /** Rule 7, "Coluna repetida". */
  function VerdictColunaRepetida(h: seq<Symbol>): Option<Hit> {
    if |h| >= 9 && Window(h, 9, 6) == Suffix(h, 3)
    then Some(Hit(Suffix(h, 3)[0], "Repetição estrutural detectada")) else None
  }

  /** Rule 8, "Reescrita Vertical". */
  function VerdictReescritaVertical(h: seq<Symbol>): Option<Hit> {
    if |h| >= 12 && Window(h, 12, 9) == Suffix(h, 3)
    then Some(Hit(Suffix(h, 3)[0], "Coluna 4 igual à Coluna 1")) else None
  }

  /**
   * Rule 9, "Troca de paleta". `sorted(bloco1) == sorted(bloco2)` holds when the
   * two blocks hold the same symbols, counted with multiplicity.
   */
  function VerdictTrocaDePaleta(h: seq<Symbol>): Option<Hit> {
    if |h| >= 6 && multiset(Window(h, 6, 3)) == multiset(Suffix(h, 3)) && Window(h, 6, 3) != Suffix(h, 3)
    then Some(Hit(Suffix(h, 3)[0], "Mesma estrutura com cores trocadas")) else None
  }

  /** Rule 10, "Espelhamento de Linhas". */
  function VerdictEspelhamentoDeLinhas(h: seq<Symbol>): Option<Hit> {
    if |h| == 27 && Suffix(h, 9) == h[..9]
    then Some(Hit(Suffix(h, 9)[0], "Linha 1 igual à Linha 3")) else None
  }

  /** Rule 11, "Coluna 1 = Coluna 5". */
  function VerdictColunaUmIgualCinco(h: seq<Symbol>): Option<Hit> {
    if |h| >= 15 && Window(h, 15, 12) == Suffix(h, 3)
    then Some(Hit(Suffix(h, 3)[0], "Padrão estrutural oculto detectado")) else None
  }

  /** Rule 12, "Loop CCE". */
  function VerdictLoopCCE(h: seq<Symbol>): Option<Hit> {
    if EndsWith(h, [C, C, E])
    then Some(Hit(E, "Sequência Casa-Casa-Empate identificada")) else None
  }

  /** Rule 13, "Disfarce de Dominância". */
  function VerdictDisfarceDeDominancia(h: seq<Symbol>): Option<Hit> {
    if EndsWith(h, [C, V, C, V])
    then Some(Hit(Back(h, 1), "Padrão de alternância estável")) else None
  }

  /** Rule 14, "Reinício Dominante". */
  function VerdictReinicioDominante(h: seq<Symbol>): Option<Hit> {
    if |h| >= 6 && Back(Suffix(h, 6), 1) != MostCommon(Suffix(h, 6))
    then Some(Hit(MostCommon(Suffix(h, 6)), "Tendência voltando para cor dominante")) else None
  }

  /** Rule 16, "Loop EVC". */
  function VerdictLoopEVC(h: seq<Symbol>): Option<Hit> {
    if EndsWith(h, [E, V, C])
    then Some(Hit(C, "Sequência Empate-Visitante-Casa detectada")) else None
  }

  /** Rule 17, "Reescrita Deslocada". */
  function VerdictReescritaDeslocada(h: seq<Symbol>): Option<Hit> {
    if |h| >= 6 && Window(h, 6, 3)[0] == Suffix(h, 3)[1] && Window(h, 6, 3)[1] == Suffix(h, 3)[2]
    then Some(Hit(Suffix(h, 3)[0], "Colunas com padrão deslocado")) else None
  }

  /** Rule 18, "Colunas Intercaladas Iguais". */
  function VerdictColunasIntercaladasIguais(h: seq<Symbol>): Option<Hit> {
    if |h| >= 15 && Window(h, 15, 12) == Window(h, 9, 6) && Window(h, 9, 6) == Suffix(h, 3)
    then Some(Hit(Suffix(h, 3)[0], "3 colunas não contíguas repetidas")) else None
  }

  /** Rule 19, "Linha 3 espelha Linha 1 invertida". */
  function VerdictLinhaTresEspelhaLinhaUm(h: seq<Symbol>): Option<Hit> {
    if |h| == 27 && h[0..9] == Reverse(h[18..27])
    then Some(Hit(h[0..9][0], "Reversão detectada entre linhas")) else None
  }

  /** Rule 20, "4x Repetição com Desvio". */
  function VerdictRepeticaoComDesvio(h: seq<Symbol>): Option<Hit> {
    if |h| >= 5 && |Distinct(Suffix(h, 5))| <= 2
    then Some(Hit(Back(Suffix(h, 5), 1), "Apenas 1 valor diferente em 5")) else None
  }

  /** Rule 21, "Empate Disfarçado". */
  function VerdictEmpateDisfarcado(h: seq<Symbol>): Option<Hit> {
    if |h| >= 5 && Back(h, 5) != Back(h, 4) && Back(h, 4) != Back(h, 3) && Back(h, 3) != Back(h, 2) && Back(h, 1) == E
    then Some(Hit(E, "Empate após alternância longa")) else None
  }

  /** Rule 22, "Quebra de Dominância". */
  function VerdictQuebraDeDominancia(h: seq<Symbol>): Option<Hit> {
    if |h| >= 5 && Back(h, 5) == Back(h, 4) && Back(h, 4) == Back(h, 3) && Back(h, 3) == Back(h, 2) && Back(h, 2) != Back(h, 1)
    then Some(Hit(Back(h, 1), "4x mesma cor quebrada na última")) else None
  }

  /** Rule 23, "Empate pós-dominância". */
  function VerdictEmpatePosDominancia(h: seq<Symbol>): Option<Hit> {
    if |h| >= 5 && Back(h, 5) == Back(h, 4) && Back(h, 4) == Back(h, 3) && Back(h, 3) == Back(h, 2) && Back(h, 2) != E && Back(h, 1) == E
    then Some(Hit(E, "Empate surge após 4x da mesma")) else None
  }

  /** Rule 24, "2x seguido de inverso". */
  function VerdictDoisSeguidoDeInverso(h: seq<Symbol>): Option<Hit> {
    if EndsWith(h, [C, C, V, V]) || EndsWith(h, [V, V, C, C])
    then Some(Hit(Back(h, 1), "Estrutura binária detectada")) else None
  }

  /** Rule 25, "Padrão 2-1-2". */
  function VerdictDoisUmDois(h: seq<Symbol>): Option<Hit> {
    if |h| >= 5 && Back(h, 5) == Back(h, 3) && Back(h, 3) == Back(h, 2) && Back(h, 4) == Back(h, 1) && Back(h, 1) != Back(h, 5)
    then Some(Hit(Back(h, 1), "Repetição com quebra central")) else None
  }

  /** Rule 26, "Coluna Escada". */
  function VerdictColunaEscada(h: seq<Symbol>): Option<Hit> {
    if |h| >= 3 && Back(h, 3) != Back(h, 2) && Back(h, 2) != Back(h, 1) && Back(h, 1) == Back(h, 3)
    then Some(Hit(Back(h, 1), "Topo e base iguais com meio diferente")) else None
  }

  /** Rule 27, "Inversão frequente". */
  function VerdictInversaoFrequente(h: seq<Symbol>): Option<Hit> {
    if |h| >= 6 && Back(h, 6) != Back(h, 5) && Back(h, 4) != Back(h, 3) && Back(h, 2) != Back(h, 1)
    then Some(Hit(Back(h, 1), "3 inversões sucessivas")) else None
  }

  /** Rule 28, "EVC em loop". */
  function VerdictEVCEmLoop(h: seq<Symbol>): Option<Hit> {
    if |h| >= 9 && Window(h, 9, 6) == Window(h, 6, 3) && Window(h, 6, 3) == Suffix(h, 3) && Suffix(h, 3) == [E, V, C]
    then Some(Hit(E, "3 blocos iguais EVC")) else None
  }

  /** Rule 29, "Empate Intervalado". */
  function VerdictEmpateIntervalado(h: seq<Symbol>): Option<Hit> {
    if |h| >= 15 && |TiesAmong(h, IntervalIndices)| >= 3
    then Some(Hit(E, "Empate ocorre a cada 5")) else None
  }

  /** Rule 30, "Simetria Irregular". */
  function VerdictSimetriaIrregular(h: seq<Symbol>): Option<Hit> {
    if |h| >= 7 && EveryOther(Suffix(h, 7)) == Reverse(OddPositions(Suffix(h, 7)))
    then Some(Hit(Back(Suffix(h, 7), 1), "Padrão espelhado alternado")) else None
  }

  /** The matches the `if` block of `rule` appends to `padroes` for history `h`. */
  function Contribution(rule: Rule, h: seq<Symbol>): seq<Match> {
    if rule == EmpateEstruturado then StructuredTies(h, TiePositions)
    else
      match Verdict(rule, h)
      case None => []
      case Some(hit) => Found(rule, hit.color, hit.reason)
  }

  /** A rule fires on `h` when its `if` block appends at least one match. */
  predicate Fires(rule: Rule, h: seq<Symbol>) {
    Contribution(rule, h) != []
  }

  /** The list each of `rules` appends, in the order of `rules`. */
  function Contributions(h: seq<Symbol>, rules: seq<Rule>): seq<seq<Match>> {
    seq(|rules|, i requires 0 <= i < |rules| => Contribution(rules[i], h))
  }

  /** The list `padroes` holds just before it is sorted. */
  function Catalogue(h: seq<Symbol>): seq<Match> {
    Flatten(Contributions(h, Declared))
  }
}

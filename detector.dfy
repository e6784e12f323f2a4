/** `detect_patterns` (the winner among the fired rules) and `gerar_sugestao` (its history gate). */
module Detector {
  import opened Symbols
  import opened Slices
  import opened Patterns
  import opened PatternFacts
  import opened Ranking

  /**
   * The tuple `detect_patterns` returns: name, suggested symbol, confidence and
   * reason. The name of a detected rule `r` is `r.Name()`.
   */
  datatype Detection = Detection(pattern: Option<Rule>, color: Option<Symbol>, confidence: nat, reason: string)

  /** `(None, None, 0.0, "Nenhum padrão confiável detectado")`. */
  const NoMatch := Detection(None, None, 0, "Nenhum padrão confiável detectado")

  /** A match, returned as the detector's tuple. */
  function Report(m: Match): Detection {
    Detection(Some(m.rule), Some(m.color), m.confidence, m.reason)
  }

  /** What `detect_patterns` returns: the first of the highest-confidence matches, or no match. */
  function Detect(h: seq<Symbol>): (d: Detection)
    ensures d.pattern.None? <==> Catalogue(h) == []
    ensures Catalogue(h) == [] ==> d == NoMatch
    ensures Catalogue(h) != [] ==> exists k :: IsFirstMaximum(Catalogue(h), k) && d == Report(Catalogue(h)[k])
  {
    var ms := Catalogue(h);
    if ms == [] then NoMatch else Report(ms[FirstMaximum(ms)])
  }

  /**
   * `detect_patterns(hist)`: collects what the firing rules append, then sorts
   * by descending confidence and returns the head. There is no precondition:
   * every index and slice is guarded.
   */
  method DetectPatterns(hist: seq<Symbol>) returns (d: Detection)
    ensures d == Detect(hist)
  {
    var padroes := CollectMatches(hist);
    if padroes == [] {
      d := NoMatch;
    } else {
      ghost var found := padroes;
      padroes := SortByConfidence(padroes);
      SortIsPermutation(found);
      SortedHeadIsFirstMaximum(found);
      d := Report(padroes[0]);
    }
  }

  /**
   * The thirty `if` blocks of `detect_patterns`, run in declaration order, each
   * appending to `padroes` what its rule finds.
   */
  method CollectMatches(hist: seq<Symbol>) returns (padroes: seq<Match>)
    ensures padroes == Catalogue(hist)
  {
    padroes := [];
    ghost var parts := Contributions(hist, Declared);
    for k := 0 to |Declared|
      invariant padroes == Flatten(parts[..k])
    {
      var rule := Declared[k];
      if rule == EmpateEstruturado {
        padroes := AppendStructuredTies(hist, padroes);
      } else {
        padroes := padroes + Contribution(rule, hist);
      }
      assert parts[..k + 1][..k] == parts[..k];
    }
    assert parts[..|Declared|] == parts;
  }

  /** Rule 15's `for i in [5, 14, 23]`: one tie match per listed position holding a tie. */
  method AppendStructuredTies(hist: seq<Symbol>, padroes: seq<Match>) returns (r: seq<Match>)
    ensures r == padroes + StructuredTies(hist, TiePositions)
  {
    r := padroes;
    for j := 0 to |TiePositions|
      invariant r == padroes + StructuredTies(hist, TiePositions[..j])
    {
      var i := TiePositions[j];
      assert TiePositions[..j + 1][..j] == TiePositions[..j];
      if |hist| > i && hist[i] == E {
        r := r + [Match(EmpateEstruturado, E, EmpateEstruturado.Confidence(), StructuredTieReason(i))];
      }
    }
    assert TiePositions[..|TiePositions|] == TiePositions;
  }

  /** The detector reports no match exactly when no rule fired. */
  lemma NoMatchIffNothingFires(h: seq<Symbol>)
    ensures Detect(h) == NoMatch <==> forall rule :: !Fires(rule, h)
  {
    CatalogueEmptyIffNoRuleFires(h);
  }

  /**
   * A reported match is one of the fired matches; no fired match has higher
   * confidence, and of equal confidence none comes from an earlier-declared rule.
   * (`CatalogueMembers` says the fired matches are exactly the catalogue.)
   */
  lemma WinnerIsFirstDeclaredMaximum(h: seq<Symbol>)
    ensures Detect(h) != NoMatch ==>
              exists m :: m in Catalogue(h) && Detect(h) == Report(m)
                && (forall x :: x in Catalogue(h) ==> x.confidence <= m.confidence)
                && (forall x :: x in Catalogue(h) && x.confidence == m.confidence ==>
                      m.rule.Number() <= x.rule.Number())
  {
    var ms := Catalogue(h);
    if ms != [] {
      CatalogueInDeclarationOrder(h);
      FirstMaximumLeads(ms);
      assert Detect(h) == Report(ms[FirstMaximum(ms)]);
    }
  }

  /** A reported match names its rule, suggests a symbol and carries that rule's constant confidence. */
  lemma DetectionIsFromTheCatalogue(h: seq<Symbol>)
    ensures Detect(h) != NoMatch ==>
              Detect(h).pattern.Some? && Detect(h).color.Some?
              && Detect(h).confidence == Detect(h).pattern.value.Confidence()
              && 65 <= Detect(h).confidence <= 86
  {
    var ms := Catalogue(h);
    if ms != [] {
      var m := ms[FirstMaximum(ms)];
      CatalogueMembers(h, m);
      ContributionIsOwnRule(m.rule, h);
    }
  }

  /** Three equal newest entries other than a tie make the reported confidence at least 0.75. */
  lemma ThreeInARowGivesAtLeast75(h: seq<Symbol>)
    requires |h| >= 3 && h[|h| - 1] == h[|h| - 2] == h[|h| - 3] && h[|h| - 1] != E
    ensures Detect(h).pattern.Some? && Detect(h).confidence >= 75
  {
    var m := Match(SequenciaCrescente, h[|h| - 1], 75, "3 repetições seguidas detectadas");
    SequenciaCrescenteFires(h);
    assert m in Catalogue(h);
    var k := FirstMaximum(Catalogue(h));
    var j :| 0 <= j < |Catalogue(h)| && Catalogue(h)[j] == m;
  }

  /**
   * A rule that fires only where a rule of strictly higher confidence also
   * fires is never reported.
   */
  lemma OutrankedNeverWins(h: seq<Symbol>, loser: Rule, rival: Rule)
    requires loser.Confidence() < rival.Confidence()
    requires Fires(loser, h) ==> Fires(rival, h)
    ensures Detect(h).pattern != Some(loser)
  {
    var ms := Catalogue(h);
    if ms != [] && ms[FirstMaximum(ms)].rule == loser {
      WinnerFires(h, loser);
      OutranksWinner(h, rival);
    }
  }

  /**
   * Rule 4 can never be reported: whenever it fires, rule 24 fires on the same
   * condition at 0.75, above rule 4's 0.70.
   */
  lemma DoisPorDoisNeverWins(h: seq<Symbol>)
    ensures Detect(h).pattern != Some(DoisPorDoisAlternado)
  {
    DuplicateRules(h);
    OutrankedNeverWins(h, DoisPorDoisAlternado, DoisSeguidoDeInverso);
  }

  /**
   * Rule 13 can never be reported: its `CVCV` ends in `VCV`, on which rule 26
   * fires at 0.72, above rule 13's 0.70.
   */
  lemma DisfarceNeverWins(h: seq<Symbol>)
    ensures Detect(h).pattern != Some(DisfarceDeDominancia)
  {
    DisfarceImpliesColunaEscada(h);
    OutrankedNeverWins(h, DisfarceDeDominancia, ColunaEscada);
  }

  /** The winner's own rule fired, and the winner carries that rule's confidence. */
  lemma WinnerFires(h: seq<Symbol>, rule: Rule)
    requires Catalogue(h) != [] && Catalogue(h)[FirstMaximum(Catalogue(h))].rule == rule
    ensures Fires(rule, h)
    ensures Catalogue(h)[FirstMaximum(Catalogue(h))].confidence == rule.Confidence()
  {
    var m := Catalogue(h)[FirstMaximum(Catalogue(h))];
    CatalogueMembers(h, m);
    ContributionIsOwnRule(m.rule, h);
  }

  /** A rule that fires puts its confidence into the catalogue, so the winner's is no lower. */
  lemma OutranksWinner(h: seq<Symbol>, rule: Rule)
    requires Fires(rule, h)
    ensures Catalogue(h) != []
    ensures Catalogue(h)[FirstMaximum(Catalogue(h))].confidence >= rule.Confidence()
  {
    var x := Contribution(rule, h)[0];
    ContributionIsOwnRule(rule, h);
    CatalogueMembers(h, x);
    var ms := Catalogue(h);
    var j :| 0 <= j < |ms| && ms[j] == x;
  }

  /** The triple `gerar_sugestao` returns: suggested symbol, confidence and reason. */
  datatype Suggestion = Suggestion(color: Option<Symbol>, confidence: nat, reason: string)

  /** `gerar_sugestao()`'s answer for too short a history. */
  const Insufficient := Suggestion(None, 0, "Histórico insuficiente para análise")

  /** The minimum history length `gerar_sugestao` demands before it consults the detector. */
  const MinHistory: nat := 5

  /** `gerar_sugestao()` on history `h`: the detector's answer, once `h` holds five entries. */
  function Suggest(h: seq<Symbol>): Suggestion {
    if |h| < MinHistory then Insufficient
    else
      var d := Detect(h);
      Suggestion(d.color, d.confidence, d.reason)
  }

  /** Below five entries there is never a suggestion, at confidence 0; from five on, the detector decides. */
  lemma SuggestionGate(h: seq<Symbol>)
    ensures |h| < 5 ==> Suggest(h) == Suggestion(None, 0, "Histórico insuficiente para análise")
    ensures |h| >= 5 ==> Suggest(h).color == Detect(h).color && Suggest(h).confidence == Detect(h).confidence
                         && Suggest(h).reason == Detect(h).reason
    ensures |h| >= 5 && (forall rule :: !Fires(rule, h)) ==>
              Suggest(h) == Suggestion(None, 0, "Nenhum padrão confiável detectado")
    ensures Suggest(h).color.Some? <==> |h| >= 5 && exists rule :: Fires(rule, h)
    ensures Suggest(h).color.Some? ==> 65 <= Suggest(h).confidence <= 86
  {
    NoMatchIffNothingFires(h);
    DetectionIsFromTheCatalogue(h);
  }
}

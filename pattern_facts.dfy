/** What the catalogue of `detect_patterns` guarantees, rule by rule and as a whole. */
module PatternFacts {
  import opened Symbols
  import opened Slices
  import opened Patterns
  import opened Ranking

  /** `Declared` holds 30 rules, the n-th rule at position n - 1. */
  lemma DeclaredNumbers(i: nat)
    requires i < |Declared|
    ensures |Declared| == 30
    ensures Declared[i].Number() == i + 1
  {
  }

  /** Every rule is declared, at the position its number gives. */
  lemma DeclaredPosition(rule: Rule)
    ensures 1 <= rule.Number() <= |Declared|
    ensures Declared[rule.Number() - 1] == rule
  {
  }

  /** Rule 15 appends only its own matches. */
  lemma {:induction false} StructuredTiesAreRule15(h: seq<Symbol>, positions: seq<nat>)
    ensures forall m :: m in StructuredTies(h, positions) ==>
              m.rule == EmpateEstruturado && m.color == E && m.confidence == EmpateEstruturado.Confidence()
    decreases |positions|
  {
    if positions != [] {
      StructuredTiesAreRule15(h, positions[..|positions| - 1]);
    }
  }

  /** Every match a rule appends carries that rule and its fixed confidence. */
  lemma ContributionIsOwnRule(rule: Rule, h: seq<Symbol>)
    ensures forall m :: m in Contribution(rule, h) ==> m.rule == rule && m.confidence == rule.Confidence()
  {
    if rule == EmpateEstruturado {
      StructuredTiesAreRule15(h, TiePositions);
    }
  }

  /** The catalogue's parts are the contributions of the rules, by declaration position. */
  lemma CataloguePart(h: seq<Symbol>, i: nat)
    requires i < |Declared|
    ensures |Contributions(h, Declared)| == |Declared|
    ensures Contributions(h, Declared)[i] == Contribution(Declared[i], h)
  {
  }

  /** A match is in `padroes` exactly when its own rule appended it. */
  lemma CatalogueMembers(h: seq<Symbol>, m: Match)
    ensures m in Catalogue(h) <==> m in Contribution(m.rule, h)
  {
    var parts := Contributions(h, Declared);
    FlattenMembers(parts, m);
    if m in Catalogue(h) {
      var i :| 0 <= i < |parts| && m in parts[i];
      CataloguePart(h, i);
      ContributionIsOwnRule(Declared[i], h);
    } else {
      DeclaredPosition(m.rule);
      CataloguePart(h, m.rule.Number() - 1);
    }
  }

  /** `padroes` stays empty exactly when no rule fires. */
  lemma CatalogueEmptyIffNoRuleFires(h: seq<Symbol>)
    ensures Catalogue(h) == [] <==> forall rule :: !Fires(rule, h)
  {
    if Catalogue(h) != [] {
      var m := Catalogue(h)[0];
      CatalogueMembers(h, m);
      assert Fires(m.rule, h);
    } else {
      forall rule ensures !Fires(rule, h) {
        if Fires(rule, h) {
          var m := Contribution(rule, h)[0];
          ContributionIsOwnRule(rule, h);
          CatalogueMembers(h, m);
        }
      }
    }
  }

  /** Flattening parts whose i-th part holds only matches of rule number i + 1 keeps rule numbers in order. */
  lemma {:induction false} FlattenByRuleNumber(parts: seq<seq<Match>>)
    requires forall i, m :: 0 <= i < |parts| && m in parts[i] ==> m.rule.Number() == i + 1
    ensures forall m :: m in Flatten(parts) ==> 1 <= m.rule.Number() <= |parts|
    ensures forall i, j :: 0 <= i < j < |Flatten(parts)| ==>
              Flatten(parts)[i].rule.Number() <= Flatten(parts)[j].rule.Number()
    decreases |parts|
  {
    if parts != [] {
      var init := parts[..|parts| - 1];
      assert forall i :: 0 <= i < |init| ==> init[i] == parts[i];
      FlattenByRuleNumber(init);
      var before := Flatten(init);
      var added := parts[|parts| - 1];
      var all: seq<Match> := before + added;
      assert Flatten(parts) == all;
      forall i, j | 0 <= i < j < |all|
        ensures all[i].rule.Number() <= all[j].rule.Number()
      {
        if j >= |before| {
          assert all[j] in added;
          if i < |before| {
            assert all[i] in before;
          } else {
            assert all[i] in added;
          }
        }
      }
    }
  }

  /** `padroes` lists matches in declaration order of their rules. */
  lemma CatalogueInDeclarationOrder(h: seq<Symbol>)
    ensures ByRuleNumber(Catalogue(h))
  {
    var parts := Contributions(h, Declared);
    forall i, m: Match | 0 <= i < |parts| && m in parts[i] ensures m.rule.Number() == i + 1 {
      CataloguePart(h, i);
      DeclaredNumbers(i);
      ContributionIsOwnRule(Declared[i], h);
    }
    FlattenByRuleNumber(parts);
  }

  /** Rule 1: three equal newest entries other than a tie fire it, suggesting that symbol. */
  lemma SequenciaCrescenteFires(h: seq<Symbol>)
    requires |h| >= 3 && h[|h| - 1] == h[|h| - 2] == h[|h| - 3] && h[|h| - 1] != E
    ensures Match(SequenciaCrescente, h[|h| - 1], 75, "3 repetições seguidas detectadas") in Catalogue(h)
  {
    CatalogueMembers(h, Match(SequenciaCrescente, h[|h| - 1], 75, "3 repetições seguidas detectadas"));
  }

  /**
   * Rule 2 fires when each of the four newest entries differs from the one
   * before it, and then suggests the newest entry itself: on `C V C V` it
   * suggests `V`.
   */
  lemma AlternanciaSimplesSuggestsNewest(h: seq<Symbol>)
    ensures Fires(AlternanciaSimples, h) <==>
              |h| >= 4 && h[|h| - 1] != h[|h| - 2] && h[|h| - 2] != h[|h| - 3] && h[|h| - 3] != h[|h| - 4]
    ensures Fires(AlternanciaSimples, h) ==>
              Contribution(AlternanciaSimples, h) == [Match(AlternanciaSimples, h[|h| - 1], 65, "Alternância em 4 posições")]
    ensures Contribution(AlternanciaSimples, [C, V, C, V]) == [Match(AlternanciaSimples, V, 65, "Alternância em 4 posições")]
  {
  }

  /**
   * Rule 30 never fires: of seven entries, `seq[::2]` keeps four and
   * `seq[1::2][::-1]` three, so the two lists can never be equal.
   */
  lemma SimetriaIrregularNeverFires(h: seq<Symbol>)
    ensures !Fires(SimetriaIrregular, h)
  {
    if |h| >= 7 {
      EveryOtherLength(Suffix(h, 7));
      OddPositionsLength(Suffix(h, 7));
      ReverseIndex(OddPositions(Suffix(h, 7)));
    }
  }

  /** Rules 4 and 24 test the same condition and suggest the same symbol. */
  lemma DuplicateRules(h: seq<Symbol>)
    ensures Fires(DoisPorDoisAlternado, h) <==> Fires(DoisSeguidoDeInverso, h)
    ensures Fires(DoisPorDoisAlternado, h) ==>
              Contribution(DoisPorDoisAlternado, h)[0].color == Contribution(DoisSeguidoDeInverso, h)[0].color
  {
  }

  /** Rule 13's `CVCV` ends in `VCV`, so rule 26 fires wherever rule 13 does. */
  lemma DisfarceImpliesColunaEscada(h: seq<Symbol>)
    ensures Fires(DisfarceDeDominancia, h) ==> Fires(ColunaEscada, h)
  {
    if Fires(DisfarceDeDominancia, h) {
      var n := |h|;
      assert h[n - 4..] == [C, V, C, V];
      assert h[n - 3] == h[n - 4..][1] && h[n - 2] == h[n - 4..][2] && h[n - 1] == h[n - 4..][3];
    }
  }

  /** Rules 10 and 19 fire only on a full 27-entry history. */
  lemma FullHistoryRules(h: seq<Symbol>)
    ensures Fires(EspelhamentoDeLinhas, h) ==> |h| == 27
    ensures Fires(LinhaTresEspelhaLinhaUm, h) ==> |h| == 27
  {
  }

  /**
   * Rule 15 counts positions from the OLDEST entry: it appends one tie match for
   * each of positions 5, 14 and 23 that exists and holds a tie, so at most three.
   */
  lemma StructuredTieCount(h: seq<Symbol>)
    ensures |Contribution(EmpateEstruturado, h)| ==
              (if |h| > 5 && h[5] == E then 1 else 0)
              + (if |h| > 14 && h[14] == E then 1 else 0)
              + (if |h| > 23 && h[23] == E then 1 else 0)
    ensures |Contribution(EmpateEstruturado, h)| <= 3
    ensures forall m :: m in Contribution(EmpateEstruturado, h) ==> m.color == E
  {
    assert TiePositions[..2] == [5, 14];
    assert [5, 14][..1] == [5];
    assert [5][..0] == [];
    assert StructuredTies(h, TiePositions) == StructuredTies(h, [5, 14]) + StructuredTieAt(h, 23);
    assert StructuredTies(h, [5, 14]) == StructuredTies(h, [5]) + StructuredTieAt(h, 14);
    assert StructuredTies(h, [5]) == StructuredTies(h, []) + StructuredTieAt(h, 5);
    StructuredTiesAreRule15(h, TiePositions);
  }

  /** Rule 29 fires exactly when indices -15, -10 and -5 all hold a tie. */
  lemma EmpateIntervaladoIff(h: seq<Symbol>)
    ensures Fires(EmpateIntervalado, h) <==>
              |h| >= 15 && h[|h| - 15] == E && h[|h| - 10] == E && h[|h| - 5] == E
  {
    if |h| >= 15 {
      assert IntervalIndices[1..] == [-10, -5];
      assert [-10, -5][1..] == [-5];
      assert [-5][1..] == [];
      var t15 := if h[|h| - 15] == E then [-15] else [];
      var t10 := if h[|h| - 10] == E then [-10] else [];
      var t5 := if h[|h| - 5] == E then [-5] else [];
      assert TiesAmong(h, [-5]) == t5 + TiesAmong(h, []);
      assert TiesAmong(h, [-10, -5]) == t10 + TiesAmong(h, [-5]);
      assert TiesAmong(h, IntervalIndices) == t15 + TiesAmong(h, [-10, -5]);
    }
  }

  /** Three symbols exist, so a window holds at most two distinct ones exactly when one is absent. */
  lemma AtMostTwoDistinct(w: seq<Symbol>)
    ensures |Distinct(w)| <= 2 <==> (C !in w || V !in w || E !in w)
  {
    if C in w && V in w && E in w {
      forall x | x in Distinct(w) ensures x in {C, V, E} {
        match x case C => case V => case E =>
      }
      assert Distinct(w) == {C, V, E};
    } else {
      var absent := if C !in w then C else if V !in w then V else E;
      var others := {C, V, E} - {absent};
      assert |others| == 2;
      forall x | x in Distinct(w) ensures x in others {
        match x case C => case V => case E =>
      }
      assert Distinct(w) - others == {};
      assert Distinct(w) + others == others;
      assert Distinct(w) * others == Distinct(w);
    }
  }

  /** Rule 20 fires on five newest entries exactly when one of the three symbols is missing from them. */
  lemma RepeticaoComDesvioIff(h: seq<Symbol>)
    ensures Fires(RepeticaoComDesvio, h) <==>
              |h| >= 5 && (C !in Suffix(h, 5) || V !in Suffix(h, 5) || E !in Suffix(h, 5))
  {
    if |h| >= 5 {
      AtMostTwoDistinct(Suffix(h, 5));
    }
  }
}

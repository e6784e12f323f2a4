# PREDICT PRO v2 pattern detector, in Dafny

This project models the decision core of `padrao30.py`, a Streamlit app for the card game Football Studio Live. The app keeps the last 27 round results. Each result is `C` (Casa, home), `V` (Visitante, away) or `E` (Empate, tie). The app runs 30 hand-written pattern rules over that history and suggests the symbol of the most confident rule that fired. It also counts how many of the user's registered entries matched the newest result.

The model has seven modules:

- `Symbols`: the three symbols and an `Option`. `Slices`: Python's negative indexing and slicing (`s[-k]`, `s[-a:-b]`, `s[::2]`, `s[::-1]`, `endswith`), written out over sequences.
- `Patterns`: one `Rule` constructor per numbered rule, each with the name, confidence and condition from the source.
  - `Contribution(rule, h)` is the list that the rule's `if` block appends to `padroes`.
  - `Catalogue(h)` is `padroes` just before the sort: all the contributions, in declaration order.
  - Confidences are whole hundredths, so `0.75` is `75`.
- `PatternFacts`: facts about single rules and about the catalogue as a whole.
- `Ranking`: `padroes.sort(key=confidence, reverse=True)` followed by `padroes[0]`. Python's sort is stable, so the head is the first match of highest confidence.
- `Detector`: two models of `detect_patterns`.
  - `Detect` is a function.
  - `DetectPatterns` is a method that appends rule by rule, with rule 15's loop over positions 5, 14 and 23, and then sorts.
  - The method is proved equal to the function.
  - This module also models the history gate of `gerar_sugestao`.
- `Session`: a class holding the session state.
  - The history is the `deque(maxlen=27)`, modelled as a sequence.
  - The other fields are `entradas`, `acertos` and `erros`.
  - Its methods are the result buttons, `registrar_entrada` and `gerar_sugestao`.

The proofs establish three facts about the catalogue that its code does not make obvious:

- Rule 30 ("Simetria Irregular") can never fire. It compares `seq[::2]` (4 elements) with `seq[1::2][::-1]` (3 elements).
- Rule 4 ("2x2 alternado") can never be reported. Rule 24 has the same condition and a higher confidence.
- Rule 13 ("Disfarce de Dominância") can never be reported. Its `CVCV` ends in `VCV`, and rule 26 outranks it there.

On `C V C V`, rule 2 ("Alternância Simples") suggests the newest symbol `V`, not the next symbol of the alternation. `PatternFacts.AlternanciaSimplesSuggestsNewest` proves this.

## Model

| member | source | states |
|---|---|---|
| Slices.ReverseIndex | padrao30.py:164 | `l[::-1]` has the same length and holds element `i` of the input at position `len - 1 - i` |
| Slices.EveryOtherLength | padrao30.py:221 | `seq[::2]` keeps ceil(n/2) elements |
| Slices.OddPositionsLength | padrao30.py:221 | `seq[1::2]` keeps floor(n/2) elements |
| Patterns.Rule.Confidence | padrao30.py:61-222 | every rule's fixed confidence lies between 0.65 and 0.86 |
| Patterns.MostCommonIsFirstMostCommon | padrao30.py:131-132 | `Counter(ultimos).most_common(1)[0][0]` occurs in the window, has the highest count, and among equally common symbols is the one that occurs first |
| Patterns.MostCommonFromIsFirst | padrao30.py:132 | the left-to-right scan that takes over only on a strictly higher count ends on a position of highest count with only lower counts before it |
| Patterns.FirstMostCommonOccursFirst | padrao30.py:132 | the symbol at that position occurs no later than any other symbol of the same count |
| Patterns.VerdictSequenciaCrescente | padrao30.py:62-63 | definition: the condition of rule 1 ("Sequência Crescente"), the symbol it suggests and its reason, with every index guarded as in the source; its facts are proved in `PatternFacts.SequenciaCrescenteFires` |
| Patterns.VerdictAlternanciaSimples | padrao30.py:66-67 | definition: the condition of rule 2 ("Alternância Simples"), the symbol it suggests and its reason, with every index guarded as in the source; its facts are proved in `PatternFacts.AlternanciaSimplesSuggestsNewest` |
| Patterns.VerdictEmpateAposAlternancia | padrao30.py:70-71 | definition: the condition of rule 3 ("Empate após alternância"), the symbol it suggests and its reason, with every index guarded as in the source; `PatternFacts.ContributionIsOwnRule` and `PatternFacts.CatalogueMembers` state what every rule appends |
| Patterns.VerdictDoisPorDoisAlternado | padrao30.py:74-75 | definition: the condition of rule 4 ("2x2 alternado"), the symbol it suggests and its reason, with every index guarded as in the source; its facts are proved in `PatternFacts.DuplicateRules` |
| Patterns.VerdictCasaEmpateCasa | padrao30.py:78-79 | definition: the condition of rule 5 ("Casa-Empate-Casa"), the symbol it suggests and its reason, with every index guarded as in the source; `PatternFacts.ContributionIsOwnRule` and `PatternFacts.CatalogueMembers` state what every rule appends |
| Patterns.VerdictPalindromoCinco | padrao30.py:82-83 | definition: the condition of rule 6 ("Palíndromo 5 posições"), the symbol it suggests and its reason, with every index guarded as in the source; `PatternFacts.ContributionIsOwnRule` and `PatternFacts.CatalogueMembers` state what every rule appends |
| Patterns.VerdictColunaRepetida | padrao30.py:86-91 | definition: the condition of rule 7 ("Coluna repetida"), the symbol it suggests and its reason, with every index guarded as in the source; `PatternFacts.ContributionIsOwnRule` and `PatternFacts.CatalogueMembers` state what every rule appends |
| Patterns.VerdictReescritaVertical | padrao30.py:94-98 | definition: the condition of rule 8 ("Reescrita Vertical"), the symbol it suggests and its reason, with every index guarded as in the source; `PatternFacts.ContributionIsOwnRule` and `PatternFacts.CatalogueMembers` state what every rule appends |
| Patterns.VerdictTrocaDePaleta | padrao30.py:101-105 | definition: the condition of rule 9 ("Troca de paleta"), the symbol it suggests and its reason, with every index guarded as in the source; `PatternFacts.ContributionIsOwnRule` and `PatternFacts.CatalogueMembers` state what every rule appends |
| Patterns.VerdictEspelhamentoDeLinhas | padrao30.py:108-112 | definition: the condition of rule 10 ("Espelhamento de Linhas"), the symbol it suggests and its reason, with every index guarded as in the source; its facts are proved in `PatternFacts.FullHistoryRules` |
| Patterns.VerdictColunaUmIgualCinco | padrao30.py:115-119 | definition: the condition of rule 11 ("Coluna 1 = Coluna 5"), the symbol it suggests and its reason, with every index guarded as in the source; `PatternFacts.ContributionIsOwnRule` and `PatternFacts.CatalogueMembers` state what every rule appends |
| Patterns.VerdictLoopCCE | padrao30.py:122-123 | definition: the condition of rule 12 ("Loop CCE"), the symbol it suggests and its reason, with every index guarded as in the source; `PatternFacts.ContributionIsOwnRule` and `PatternFacts.CatalogueMembers` state what every rule appends |
| Patterns.VerdictDisfarceDeDominancia | padrao30.py:126-127 | definition: the condition of rule 13 ("Disfarce de Dominância"), the symbol it suggests and its reason, with every index guarded as in the source; its facts are proved in `PatternFacts.DisfarceImpliesColunaEscada` |
| Patterns.VerdictReinicioDominante | padrao30.py:130-134 | definition: the condition of rule 14 ("Reinício Dominante"), the symbol it suggests and its reason, with every index guarded as in the source; its facts are proved in `Patterns.MostCommonIsFirstMostCommon` |
| Patterns.VerdictLoopEVC | padrao30.py:142-143 | definition: the condition of rule 16 ("Loop EVC"), the symbol it suggests and its reason, with every index guarded as in the source; `PatternFacts.ContributionIsOwnRule` and `PatternFacts.CatalogueMembers` state what every rule appends |
| Patterns.VerdictReescritaDeslocada | padrao30.py:146-150 | definition: the condition of rule 17 ("Reescrita Deslocada"), the symbol it suggests and its reason, with every index guarded as in the source; `PatternFacts.ContributionIsOwnRule` and `PatternFacts.CatalogueMembers` state what every rule appends |
| Patterns.VerdictColunasIntercaladasIguais | padrao30.py:153-158 | definition: the condition of rule 18 ("Colunas Intercaladas Iguais"), the symbol it suggests and its reason, with every index guarded as in the source; `PatternFacts.ContributionIsOwnRule` and `PatternFacts.CatalogueMembers` state what every rule appends |
| Patterns.VerdictLinhaTresEspelhaLinhaUm | padrao30.py:161-165 | definition: the condition of rule 19 ("Linha 3 espelha Linha 1 invertida"), the symbol it suggests and its reason, with every index guarded as in the source; its facts are proved in `PatternFacts.FullHistoryRules` |
| Patterns.VerdictRepeticaoComDesvio | padrao30.py:168-171 | definition: the condition of rule 20 ("4x Repetição com Desvio"), the symbol it suggests and its reason, with every index guarded as in the source; its facts are proved in `PatternFacts.RepeticaoComDesvioIff` |
| Patterns.VerdictEmpateDisfarcado | padrao30.py:174-176 | definition: the condition of rule 21 ("Empate Disfarçado"), the symbol it suggests and its reason, with every index guarded as in the source; `PatternFacts.ContributionIsOwnRule` and `PatternFacts.CatalogueMembers` state what every rule appends |
| Patterns.VerdictQuebraDeDominancia | padrao30.py:179-180 | definition: the condition of rule 22 ("Quebra de Dominância"), the symbol it suggests and its reason, with every index guarded as in the source; `PatternFacts.ContributionIsOwnRule` and `PatternFacts.CatalogueMembers` state what every rule appends |
| Patterns.VerdictEmpatePosDominancia | padrao30.py:183-184 | definition: the condition of rule 23 ("Empate pós-dominância"), the symbol it suggests and its reason, with every index guarded as in the source; `PatternFacts.ContributionIsOwnRule` and `PatternFacts.CatalogueMembers` state what every rule appends |
| Patterns.VerdictDoisSeguidoDeInverso | padrao30.py:187-188 | definition: the condition of rule 24 ("2x seguido de inverso"), the symbol it suggests and its reason, with every index guarded as in the source; its facts are proved in `PatternFacts.DuplicateRules` |
| Patterns.VerdictDoisUmDois | padrao30.py:191-192 | definition: the condition of rule 25 ("Padrão 2-1-2"), the symbol it suggests and its reason, with every index guarded as in the source; `PatternFacts.ContributionIsOwnRule` and `PatternFacts.CatalogueMembers` state what every rule appends |
| Patterns.VerdictColunaEscada | padrao30.py:195-196 | definition: the condition of rule 26 ("Coluna Escada"), the symbol it suggests and its reason, with every index guarded as in the source; its facts are proved in `PatternFacts.DisfarceImpliesColunaEscada` |
| Patterns.VerdictInversaoFrequente | padrao30.py:199-202 | definition: the condition of rule 27 ("Inversão frequente"), the symbol it suggests and its reason, with every index guarded as in the source; `PatternFacts.ContributionIsOwnRule` and `PatternFacts.CatalogueMembers` state what every rule appends |
| Patterns.VerdictEVCEmLoop | padrao30.py:205-210 | definition: the condition of rule 28 ("EVC em loop"), the symbol it suggests and its reason, with every index guarded as in the source; `PatternFacts.ContributionIsOwnRule` and `PatternFacts.CatalogueMembers` state what every rule appends |
| Patterns.VerdictEmpateIntervalado | padrao30.py:213-216 | definition: the condition of rule 29 ("Empate Intervalado"), the symbol it suggests and its reason, with every index guarded as in the source; its facts are proved in `PatternFacts.EmpateIntervaladoIff` |
| Patterns.VerdictSimetriaIrregular | padrao30.py:219-222 | definition: the condition of rule 30 ("Simetria Irregular"), the symbol it suggests and its reason, with every index guarded as in the source; its facts are proved in `PatternFacts.SimetriaIrregularNeverFires` |
| Patterns.Verdict | padrao30.py:61-222 | definition: dispatches each rule other than 15 to its own `if` block |
| Patterns.StructuredTieAt | padrao30.py:137-139 | definition: one iteration of rule 15's loop; `PatternFacts.StructuredTiesAreRule15` states what it appends |
| Patterns.StructuredTies | padrao30.py:137-139 | definition: rule 15's loop over the listed positions; its facts are proved in `PatternFacts.StructuredTiesAreRule15` and `PatternFacts.StructuredTieCount` |
| Patterns.TiesAmong | padrao30.py:214 | definition: `[i for i in range(-15, 0, 5) if hist[i] == "E"]`; its facts are proved in `PatternFacts.EmpateIntervaladoIff` |
| Patterns.MostCommon | padrao30.py:132 | definition: `Counter(ultimos).most_common(1)[0][0]` as a left-to-right scan; its facts are proved in `Patterns.MostCommonIsFirstMostCommon` |
| Patterns.Contribution | padrao30.py:61-222 | definition: the matches one rule's `if` block appends; its facts are proved in `PatternFacts.ContributionIsOwnRule` |
| Patterns.Catalogue | padrao30.py:58-222 | definition: `padroes` before the sort, all contributions in declaration order; its facts are proved in `PatternFacts.CatalogueMembers`, `PatternFacts.CatalogueEmptyIffNoRuleFires` and `PatternFacts.CatalogueInDeclarationOrder` |
| PatternFacts.DeclaredNumbers | padrao30.py:61-222 | the catalogue has 30 rules, and the rule at position i is rule number i + 1 |
| PatternFacts.DeclaredPosition | padrao30.py:61-222 | every rule is evaluated, at the position its number gives |
| PatternFacts.StructuredTiesAreRule15 | padrao30.py:137-139 | each match appended by rule 15's loop is rule 15's, suggests a tie, at 0.74 |
| PatternFacts.ContributionIsOwnRule | padrao30.py:61-222 | each match a rule appends carries that rule and that rule's confidence |
| PatternFacts.CataloguePart | padrao30.py:61-222 | the i-th part of `padroes` is what the i-th rule appends |
| PatternFacts.CatalogueMembers | padrao30.py:58-222 | a match is in `padroes` if and only if its own rule appended it |
| PatternFacts.CatalogueEmptyIffNoRuleFires | padrao30.py:224 | `padroes` is empty if and only if no rule fires |
| PatternFacts.FlattenByRuleNumber | padrao30.py:58-222 | appending parts in order keeps matches ordered by the number of the rule that produced them |
| PatternFacts.CatalogueInDeclarationOrder | padrao30.py:58-222 | `padroes` lists matches in non-decreasing rule number |
| PatternFacts.SequenciaCrescenteFires | padrao30.py:62-63 | three equal newest entries other than a tie put rule 1's match, with the newest symbol, at 0.75, into `padroes` |
| PatternFacts.AlternanciaSimplesSuggestsNewest | padrao30.py:65-67 | rule 2 fires if and only if each of the four newest entries differs from the one before it, and then appends one match suggesting the newest entry; on `C V C V` it suggests `V` |
| PatternFacts.SimetriaIrregularNeverFires | padrao30.py:219-222 | rule 30 never fires on any history |
| PatternFacts.DuplicateRules | padrao30.py:73-188 | rules 4 and 24 fire on exactly the same histories and suggest the same symbol |
| PatternFacts.DisfarceImpliesColunaEscada | padrao30.py:125-196 | wherever rule 13 fires, rule 26 fires too |
| PatternFacts.FullHistoryRules | padrao30.py:107-165 | rules 10 and 19 fire only on a full 27-entry history |
| PatternFacts.StructuredTieCount | padrao30.py:136-139 | rule 15 appends one tie match per position among 5, 14, 23 that exists and holds a tie, so at most three |
| PatternFacts.EmpateIntervaladoIff | padrao30.py:212-216 | rule 29 fires if and only if the history has 15 entries and positions -15, -10 and -5 all hold ties |
| PatternFacts.AtMostTwoDistinct | padrao30.py:170 | `len(set(seq)) <= 2` if and only if one of the three symbols is missing from `seq` |
| PatternFacts.RepeticaoComDesvioIff | padrao30.py:167-171 | rule 20 fires if and only if the history has 5 entries and one symbol is missing from the newest five |
| Ranking.FirstMaximum | padrao30.py:226-227 | the position it returns holds a highest confidence, and every earlier position holds a strictly lower one |
| Ranking.FirstMaximumLeads | padrao30.py:226-227 | in a list ordered by rule number, the first match of highest confidence has no match above it and none of equal confidence from a lower-numbered rule |
| Ranking.Insert | padrao30.py:226 | definition: one step of the stable sort; its facts are proved in `Ranking.InsertAdds` and `Ranking.InsertKeepsOrder` |
| Ranking.SortByConfidence | padrao30.py:226 | definition: `padroes.sort(key=confidence, reverse=True)`; its facts are proved in `Ranking.SortIsPermutation`, `Ranking.SortIsOrdered` and `Ranking.SortedHeadIsFirstMaximum` |
| Ranking.InsertAdds | padrao30.py:226 | one insertion step adds exactly the inserted match |
| Ranking.InsertKeepsOrder | padrao30.py:226 | one insertion step keeps a list ordered by descending confidence ordered |
| Ranking.SortIsPermutation | padrao30.py:226 | the sort returns a permutation of `padroes` |
| Ranking.SortIsOrdered | padrao30.py:226 | the sort returns `padroes` in descending confidence |
| Ranking.SortedHeadIsFirstMaximum | padrao30.py:226-227 | after the stable sort, `padroes[0]` is the first match of highest confidence in declaration order |
| Detector.Detect | padrao30.py:224-227 | no pattern is reported if and only if nothing fired, and then the answer is `(None, None, 0, "Nenhum padrão confiável detectado")`; otherwise the answer is the first highest-confidence match |
| Detector.DetectPatterns | padrao30.py:57-227 | the 30 `if` blocks, rule 15's loop, the sort and the head together return `Detect(hist)` |
| Detector.CollectMatches | padrao30.py:57-222 | the 30 `if` blocks, run in order, build exactly `padroes` as `Catalogue` defines it; each block other than rule 15's is its `Patterns.Verdict*` function, appended through `Contribution`, and rule 15's loop is written out in `Detector.AppendStructuredTies` |
| Detector.AppendStructuredTies | padrao30.py:136-139 | rule 15's loop over positions 5, 14 and 23 appends exactly the tie matches rule 15 contributes |
| Detector.NoMatchIffNothingFires | padrao30.py:224-225 | the "no pattern" answer comes back if and only if no rule fires |
| Detector.WinnerIsFirstDeclaredMaximum | padrao30.py:226-227 | the reported match is a fired match; none has higher confidence, and none of equal confidence comes from an earlier rule |
| Detector.DetectionIsFromTheCatalogue | padrao30.py:61-227 | a reported detection names a rule and a symbol, and carries that rule's confidence, between 0.65 and 0.86 |
| Detector.ThreeInARowGivesAtLeast75 | padrao30.py:62-63 | three equal newest non-tie entries make the reported confidence at least 0.75 |
| Detector.DoisPorDoisNeverWins | padrao30.py:73-75 | rule 4 is never reported |
| Detector.DisfarceNeverWins | padrao30.py:125-127 | rule 13 is never reported |
| Detector.OutrankedNeverWins | padrao30.py:226-227 | a rule that fires only where a rule of strictly higher confidence also fires is never reported |
| Detector.WinnerFires | padrao30.py:226-227 | the reported match's rule fired, and the match has that rule's confidence |
| Detector.OutranksWinner | padrao30.py:226-227 | a firing rule makes `padroes` nonempty, and the reported confidence is at least that rule's |
| Detector.Suggest | padrao30.py:230-235 | definition: `gerar_sugestao()` on a given history; its facts are proved in `Detector.SuggestionGate` |
| Detector.SuggestionGate | padrao30.py:230-235 | under five entries the answer is `(None, 0, "Histórico insuficiente para análise")`; from five entries on it carries the detector's symbol, confidence and reason; a symbol is suggested if and only if there are five entries and some rule fires |
| Session.BoundedAppend | padrao30.py:14 | appending to a deque bounded at 27 keeps at most 27 entries, the new one last, after the newest 26 of the old ones |
| Session.Replay | padrao30.py:14 | definition: the deque after appending each result in turn; its facts are proved in `Session.ReplayKeepsNewest` |
| Session.ReplayKeepsNewest | padrao30.py:14 | after any sequence of appends, the history is exactly the newest 27 results, in order |
| Session.Session.constructor | padrao30.py:13-20 | the session starts with an empty history, no entries and zero hits and misses |
| Session.Session.AppendResult | padrao30.py:29-34 | a result button appends to the bounded history and changes nothing else |
| Session.Session.RegistrarEntrada | padrao30.py:237-245 | the entry is always recorded; with an empty history nothing is counted; otherwise a hit is counted if the entry equals the newest result and a miss if not |
| Session.Session.GerarSugestao | padrao30.py:230-235 | the method returns `Suggest` of the current history |

## Left out

- The Streamlit page is not modelled: the title, buttons, the 3x9 panel (lines 27-55) and the suggestion and statistics displays (lines 247-279). It is user interface only. Each button press is modelled by the method it triggers.
- The accuracy percentage (line 271) is not modelled. It is floating-point display arithmetic on `acertos` and `erros`, which are modelled.
- `memoria_padroes` (lines 21-22) is not modelled. It is initialised and never read or written again.
- `time.time()` in `registrar_entrada` is not modelled. The method takes the clock reading as the parameter `now`.
- Confidences are whole hundredths, not Python floats. Every constant in the source has at most two decimals, so the ranking is the same.
- A detection's pattern name is not modelled as a string. It is the `Rule` value, and `Rule.Name()` gives the source's name. The 30 names are distinct.
- Ranking.SortIsOrdered: the full stability of `list.sort` is not modelled. The relative order of all equal-confidence matches is not stated. The model proves only that the sort is an ordered permutation, and that its head is the first maximum (`Ranking.SortedHeadIsFirstMaximum`). Nothing reads beyond the head.
- `h.endswith(...)` on the joined string is modelled as a suffix test on the symbol sequence. Every symbol is one character, so the two agree.

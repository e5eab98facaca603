# EntheoGen interaction resolver in Dafny

EntheoGen is a single-page app. A user picks two substances and sees how they interact. The answer comes from a curated table of pair classifications: a code from a seven-level risk legend, a summary, a confidence and the sources. This project models the logic that produces that answer, and proves properties of it.

It has two modules.

- `DrugData` (`drug_data.dfy`) models `src/data/drugData.ts`:
  - the substance catalogue `DRUGS`, the `LEGEND` and the pair table `INTERACTION_RULES`, as constants with the source's entries and texts;
  - `pairKey`, which sorts the two ids and joins them with `|`;
  - `getInteractionEvidence`, which returns SELF for a self-pair, then the table entry under the pair key, then a fixed UNK fallback.

  It proves:
  - both of these are symmetric;
  - the self-pair rule wins over any table contents;
  - every code the table uses is a legend code;
  - the legend ranks are right and distinct;
  - every catalogue id is a plain lower-case identifier;
  - every table key is the sorted join of two catalogue ids, so every entry can be reached from the pickers;
  - the worked examples.
- `App` (`app.dfy`) models the non-visual logic of `src/App.tsx`:
  - the evidence, code and legend entry derived from the current selection;
  - the favourites list. Its canonical id is the two ids sorted and joined with `-`. It has a membership test, a toggle and the trash button. The list is a class whose methods replace the `entries` sequence, as `setFavorites` does;
  - the search filter of the substance picker.

Notes on the encoding:

- JavaScript's default `sort()` on two strings is a strict lexicographic order on characters, `LexLess`. The two-element sort swaps only when the second id is strictly smaller.
- The source fields `class` and `label` are Dafny keywords. They are called `drugClass` and `labelText` here.
- Looking a key up on the source's plain object behaves as a map lookup. Every pair key contains `|`, and no inherited property name does. Every table entry is an object, so `||` falls back only when the key is absent.
- `toLowerCase` is modelled on ASCII letters only.

## Model

| member | source | states |
|---|---|---|
| DrugData.LexLessIrreflexive | src/data/drugData.ts:446 | the order `sort()` applies is strict: no id sorts before itself |
| DrugData.LexLessAsymmetric | src/data/drugData.ts:446 | of two ids at most one sorts first |
| DrugData.LexLessTransitive | src/data/drugData.ts:446 | the order is transitive |
| DrugData.LexLessTotal | src/data/drugData.ts:446 | any two different ids are ordered one way or the other |
| DrugData.SortPair | src/data/drugData.ts:446 | `[a, b].sort()` is a permutation of the two ids, smaller first |
| DrugData.SortPairSymmetric | src/data/drugData.ts:446 | sorting two ids does not depend on the order they come in |
| DrugData.CanonicalKey | src/data/drugData.ts:446 | the sort-and-join key is the two ids, smaller first, around the separator; its length is theirs plus one |
| DrugData.CanonicalKeySymmetric | src/data/drugData.ts:446 | the sort-and-join key is order-independent, whatever the separator |
| DrugData.CanonicalKeyOfOrdered | src/data/drugData.ts:446 | for an ordered pair the key is the ids joined as written, and the reversed pair gives the same key |
| DrugData.JoinInjective | src/data/drugData.ts:446 | a join whose left part has no separator splits back into its two parts |
| DrugData.CanonicalKeyInjective | src/data/drugData.ts:446 | when no id contains the separator, equal keys mean the same unordered pair |
| DrugData.PairKey | src/data/drugData.ts:446 | `pairKey` is the sorted pair joined with the bar separator |
| DrugData.PairKeySymmetric | src/data/drugData.ts:446 | `pairKey(a, b) == pairKey(b, a)` for all strings |
| DrugData.Resolve | src/data/drugData.ts:448-465 | the rule over any table: SELF for equal ids; otherwise the entry under the key, returned verbatim; otherwise the UNK record |
| DrugData.ResolveSymmetric | src/data/drugData.ts:446-465 | resolution is order-independent over any table |
| DrugData.SelfPairAbsolute | src/data/drugData.ts:449-456 | a self-pair gives code SELF, confidence `n/a` and sources `n/a`, whatever the table holds |
| DrugData.GetInteractionEvidence | src/data/drugData.ts:448-465 | the result always has a legend code; SELF exactly for equal ids; UNK exactly for distinct ids whose key the table lacks |
| DrugData.GetInteractionEvidenceSymmetric | src/data/drugData.ts:446-465 | `getInteractionEvidence(a, b) == getInteractionEvidence(b, a)` |
| DrugData.ResolvedRiskScale | src/data/drugData.ts:223-273 | the resolved code's rank is -1 exactly for a self-pair, 0 exactly for an unlisted pair, and between -1 and 5 |
| DrugData.RuleCodesGraded | src/data/drugData.ts:275-444 | every table entry carries one of LOW, LOW_MOD, CAU, UNS, DAN |
| DrugData.LegendRanks | src/data/drugData.ts:223-273 | the legend has exactly seven codes, ranked SELF -1, UNK 0, LOW..DAN 1..5, with no two codes sharing a rank |
| DrugData.CodeRank | src/data/drugData.ts:223-273 | a legend code has rank -1 exactly when it is SELF and 0 exactly when it is UNK |
| DrugData.LegendClosure | src/data/drugData.ts:223-444 | every code in the table is a legend key, and never SELF or UNK |
| DrugData.CatalogueIds | src/data/drugData.ts:24-221 | `DrugIds` is the list of catalogue ids, position by position |
| DrugData.IdentifierHasNoSeparator | src/data/drugData.ts:446 | an identifier contains neither the bar separator nor `-` |
| DrugData.DrugIdsFirstHalf | src/data/drugData.ts:24-122 | the first fourteen catalogue ids are identifiers |
| DrugData.DrugIdsSecondHalf | src/data/drugData.ts:123-221 | the remaining catalogue ids are identifiers |
| DrugData.DrugIdsWellFormed | src/data/drugData.ts:24-221 | every catalogue id is a non-empty string of lower-case letters, digits and `_`, so it contains neither separator |
| DrugData.PairKeyIdentifiesPair | src/data/drugData.ts:446 | for identifiers such as the catalogue ids, two pairs with the same `pairKey` are the same two ids |
| DrugData.RuleKeysListed | src/data/drugData.ts:275-444 | `RuleKeys` lists exactly the table's keys |
| DrugData.ResolveSortedJoin | src/data/drugData.ts:446-465 | resolving the two halves of a table key that is a sorted join, in either order, returns that key's entry |
| DrugData.ResolveReachesEveryEntry | src/data/drugData.ts:446-465 | over any table whose keys are sorted joins of known ids, every entry is returned for two distinct ids, in both orders |
| DrugData.RuleKeyAt | src/data/drugData.ts:275-444 | each listed key is the sorted join of two catalogue ids |
| DrugData.RuleKeysCanonical | src/data/drugData.ts:275-446 | every table key is two catalogue ids x < y joined by the bar, so it equals `pairKey(x, y)` |
| DrugData.EveryRuleReachable | src/data/drugData.ts:275-465 | every table entry is what `getInteractionEvidence` returns for two distinct catalogue ids, in either order |
| DrugData.AyahuascaAlcoholKey | src/data/drugData.ts:446 | both orders of ayahuasca and alcohol give the key alcohol, bar, ayahuasca |
| DrugData.AlcoholAyahuascaEntry | src/data/drugData.ts:276-281 | the table classifies the alcohol/ayahuasca key as DAN with high confidence |
| DrugData.AyahuascaAlcohol | src/data/drugData.ts:276-281 | ayahuasca with alcohol resolves to DAN with high confidence, in either order |
| DrugData.PsilocybinSelf | src/data/drugData.ts:449-456 | psilocybin with itself resolves to SELF |
| DrugData.PsilocybinSsriKey | src/data/drugData.ts:446 | psilocybin and ssri give the key psilocybin, bar, ssri |
| DrugData.PsilocybinSsriEntry | src/data/drugData.ts:432-437 | the table classifies the psilocybin/ssri key as LOW_MOD |
| DrugData.PsilocybinSsri | src/data/drugData.ts:432-437 | psilocybin with ssri returns the table's entry verbatim, whose code is LOW_MOD |
| DrugData.SalviaBelladonnaKey | src/data/drugData.ts:446 | salvia and belladonna give the key belladonna, bar, salvia |
| DrugData.BelladonnaSalviaAbsent | src/data/drugData.ts:275-444 | the table has no belladonna/salvia key |
| DrugData.SalviaBelladonnaUnlisted | src/data/drugData.ts:457-464 | salvia with belladonna falls back to the UNK record |
| App.Filter | src/App.tsx:51-54 | `Array.prototype.filter`: the result holds exactly the kept elements of the input and is no longer than it |
| App.FilterAppend | src/App.tsx:51-54 | filtering keeps order: filtering a concatenation filters each part |
| App.FilterKeepsAll | src/App.tsx:51-54 | a filter that keeps every element returns the input unchanged |
| App.FilterSameTest | src/App.tsx:51-54 | two tests that agree on every element filter alike |
| App.SelectedEvidence | src/App.tsx:169-172 | evidence exists exactly when both pickers hold an id; it has a legend code, SELF exactly for equal ids |
| App.InteractionCode | src/App.tsx:174 | a code exists exactly when both pickers hold an id; it is a legend code, SELF exactly for equal ids |
| App.SelectedInteraction | src/App.tsx:176-179 | a legend entry exists exactly when both pickers hold an id; its rank is -1 exactly for equal ids and lies in -1..5 |
| App.FavoriteId | src/App.tsx:183 | the favourite id is the two ids, smaller first, joined with `-` |
| App.FavoriteIdSymmetric | src/App.tsx:183 | the favourite id does not depend on the order of the pickers |
| App.FavoriteIdIdentifiesPair | src/App.tsx:183 | for identifiers such as the catalogue ids, two pairs with the same favourite id are the same two ids |
| App.SomeHasId | src/App.tsx:184 | `favorites.some(f => f.id === id)` holds exactly when some entry has that id |
| App.IsFavorited | src/App.tsx:181-185 | true exactly when both pickers hold an id and some entry carries the pair's favourite id |
| App.IsFavoritedSymmetric | src/App.tsx:181-185 | `isFavorited` is the same for (d1, d2) and (d2, d1) |
| App.WithoutId | src/App.tsx:192 | the filter keeps exactly the entries whose id differs |
| App.WithoutIdAppend | src/App.tsx:192 | removal keeps the remaining entries in order |
| App.WithoutAbsentId | src/App.tsx:192 | removing an id no entry carries changes nothing |
| App.UniqueTail | src/App.tsx:192 | without its head, a list with unique ids keeps unique ids, none of them the head's |
| App.UniqueCons | src/App.tsx:192 | an entry in front of unique ids that are all different from its own keeps ids unique |
| App.WithoutIdKeepsUnique | src/App.tsx:192 | removal keeps favourite ids unique |
| App.CanToggleIff | src/App.tsx:188 | the toggle guard holds exactly for two selected, different ids |
| App.NewFavorite | src/App.tsx:193-199 | the appended entry has the pair's favourite id, the ids as selected, and the pair's resolved code: a legend code other than SELF, UNK for an unlisted pair |
| App.Toggled | src/App.tsx:187-201 | unchanged when the guard fails; when favourited, the old list filtered by id, so exactly the other entries remain, in order; otherwise one new entry is appended after the unchanged old list |
| App.ToggleFlips | src/App.tsx:187-201 | a guarded toggle flips whether the pair is a favourite |
| App.ToggleRoundTrip | src/App.tsx:187-201 | from a list without the pair, two toggles restore the list |
| App.ToggleKeepsUnique | src/App.tsx:187-201 | a toggle keeps favourite ids unique |
| App.FavoriteList.constructor | src/App.tsx:147 | the list starts empty |
| App.FavoriteList.Toggle | src/App.tsx:187-201 | `toggleFavorite` replaces the entries by their toggled list, keeps ids unique and flips the pair's favourite state when guarded |
| App.FavoriteList.Remove | src/App.tsx:636 | the trash button removes exactly the entries with the given id, in order, and keeps ids unique |
| App.ToLower | src/App.tsx:52-53 | lower-casing keeps the length, maps each ASCII capital to its small letter and leaves every other character |
| App.ToLowerIdempotent | src/App.tsx:52-53 | lower-casing twice is lower-casing once |
| App.Includes | src/App.tsx:52-53 | `s.includes(t)` holds exactly when `t` occurs in `s` at some position |
| App.SearchFilter | src/App.tsx:50-55 | a substance is kept exactly when its lower-cased name or class contains the lower-cased query |
| App.EmptySearchKeepsAll | src/App.tsx:50-55 | an empty query keeps every substance, in order |
| App.SearchIgnoresQueryCase | src/App.tsx:50-55 | lower-casing the query first does not change the result |
| App.SearchFilterAppend | src/App.tsx:50-55 | the search keeps catalogue order |
| App.FilteredDrugs | src/App.tsx:50-55 | `filteredDrugs` keeps exactly the matching catalogue entries, and all of `DRUGS` for an empty query |

## Left out

- `src/services/geminiService.ts` is not part of this model. It makes network calls to an external generative API. That includes the `API_KEY_MISSING` errors it throws when no key is configured.
- Loading and saving the favourites in `localStorage`, with JSON parsing (src/App.tsx:151-167), is I/O and is not modelled. A list loaded from storage need not have unique ids, so `FavoriteList.Toggle` and `FavoriteList.Remove` promise unique ids only when the list had them before.
- `handleFindOut`, its loading and error flags, and the explanation and summary requests (src/App.tsx:203-257) are not modelled. They are asynchronous network orchestration.
- The call sites pass five and three arguments to service functions that declare four and two. This is a mismatch with code outside the model, and it is not modelled.
- Rendering, icons, animations and click-outside handling are UI only and are not modelled.
- React's batching of state updates is not modelled. The model applies each toggle or removal to the list as it stands.
- ToLower: lower-cases ASCII capitals only. JavaScript's `toLowerCase` is Unicode-aware, so the model can disagree with it on queries or names with non-ASCII capitals.
- LexLess: compares characters, while JavaScript's `sort()` compares UTF-16 code units. The two agree on the catalogue ids, which are ASCII.
- EveryRuleReachable: states reachability over `DrugIds` rather than `Drugs`. `CatalogueIds` shows the two hold the same ids in the same order.
- The display-only legend fields `symbol` and `color`, and the drug fields `mechanismTag` and `notes`, are carried as text that no operation inspects.

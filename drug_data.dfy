/**
 * The substance catalogue, the risk legend and the curated pair table of
 * src/data/drugData.ts, with the pair-resolution rule built on them.
 *
 * Everything here is a constant or a pure, total function: the resolver
 * takes two substance ids and returns an evidence record, never failing.
 */
module DrugData {

  /** A catalogue entry.  The source field `class` is `drugClass` here
      (`class` is a Dafny keyword); `mechanismTag` and `notes` are
      descriptive text that no operation inspects. */
  datatype Drug = Drug(id: string, name: string, drugClass: string,
                       mechanismTag: string, notes: string)

  /** A legend entry: display text (the source field `label` is `labelText`
      here, `label` being a Dafny keyword), display-only symbol and colour,
      and the severity rank `riskScale` (-1 for SELF, 0 for UNK, 1..5
      otherwise). */
  datatype InteractionMetadata = InteractionMetadata(labelText: string, symbol: string, color: string,
                                                     description: string, riskScale: int)

  /** What the resolver returns for a pair: a legend code and its evidence. */
  datatype InteractionEvidence = InteractionEvidence(code: string, summary: string,
                                                     confidence: string, sources: string)

  /** The substance catalogue, in listing order. */
  const Drugs: seq<Drug> :=
    [
      Drug("ayahuasca", "Ayahuasca", "Ceremonial Psychedelic",
           "MAOI + DMT",
           "Contains harmala alkaloids; interaction profile strongly MAOI-mediated."),
      Drug("psilocybin", "Psilocybin Mushrooms", "Ceremonial Psychedelic",
           "Serotonergic psychedelic",
           "Classical psychedelic; medication interactions include blunting/intensification."),
      Drug("nn_dmt", "N,N-DMT", "Ceremonial Psychedelic",
           "Serotonergic tryptamine",
           "Referenced as generally lower risk with ayahuasca context than 5-MeO-DMT."),
      Drug("five_meo_dmt", "5-MeO-DMT", "Ceremonial Psychedelic",
           "Serotonergic tryptamine",
           "Specifically flagged as dangerous with MAOIs in supplied sources."),
      Drug("mescaline_peyote", "Mescaline / Peyote", "Ceremonial Psychedelic",
           "Phenethylamine psychedelic",
           "Listed with spacing guidance relative to ayahuasca."),
      Drug("yopo", "Yopo", "Ceremonial Psychedelic",
           "5-MeO-DMT + bufotenine containing seeds",
           "Source notes caution due active constituents."),
      Drug("lsd", "LSD", "Ceremonial Psychedelic",
           "Serotonergic psychedelic",
           "Included in lower-risk ayahuasca combination examples."),
      Drug("salvia", "Salvia divinorum", "Ceremonial Psychedelic",
           "Atypical dissociative/dysphoric profile",
           "Marked distinct per request; no explicit risk ratings in provided documents."),
      Drug("belladonna", "Belladonna", "Deliriant",
           "Anticholinergic deliriant",
           "Marked distinct per request; no explicit risk ratings in provided documents."),
      Drug("brugmansia", "Brugmansia", "Deliriant",
           "Anticholinergic deliriant",
           "Marked distinct per request; no explicit risk ratings in provided documents."),
      Drug("kambo", "Kambo", "Ceremonial Adjunct",
           "Ceremonial adjunct",
           "Caution advised around co-presentation with ayahuasca."),
      Drug("tobacco_rape", "Tobacco / Rap\U{221A}\U{00A9}", "Ceremonial Adjunct",
           "Nicotinic stimulant (traditional adjunct)",
           "Generally noted as acceptable with caveats on admixtures."),
      Drug("cannabis", "Cannabis", "Ceremonial Or Recreational",
           "Cannabinoid",
           "Listed in lower-risk ayahuasca combinations."),
      Drug("alcohol", "Alcohol", "Non Ceremonial",
           "CNS depressant",
           "Explicitly advised against with ayahuasca in provided text."),
      Drug("ssri", "SSRIs", "Pharmaceutical Class",
           "Serotonin reuptake inhibition",
           "Psilocybin chart: blunted effects; ayahuasca: serotonin syndrome risk."),
      Drug("snri", "SNRIs", "Pharmaceutical Class",
           "Serotonin + norepinephrine reuptake inhibition",
           "Psilocybin chart: blunted effects; ayahuasca contraindication list includes SNRIs."),
      Drug("tricyclic_ad", "Tricyclic Antidepressants", "Pharmaceutical Class",
           "Mixed monoamine reuptake effects",
           "Psilocybin chart: intensified effects; specific tricyclics listed as contraindicated with ayahuasca."),
      Drug("maoi_pharma", "Pharmaceutical MAOIs", "Pharmaceutical Class",
           "Monoamine oxidase inhibition",
           "Major contraindication category around ayahuasca and serotonergic combinations."),
      Drug("atypical_ad", "Atypical Antidepressants", "Pharmaceutical Class",
           "Mixed serotonergic mechanisms",
           "Buspirone, trazodone, mirtazapine in psilocybin chart mostly blunted."),
      Drug("ndri_bupropion", "NDRI (Bupropion)", "Pharmaceutical Class",
           "Norepinephrine + dopamine reuptake inhibition",
           "Psilocybin chart flags reduced seizure threshold and individualized risk."),
      Drug("amphetamine_stims", "Amphetamine Stimulants", "Pharmaceutical Or Recreational",
           "Monoamine releasing stimulant",
           "Explicitly high risk with MAOI context; potential hypertensive crisis/serotonin toxicity."),
      Drug("methylphenidate", "Methylphenidate", "Pharmaceutical",
           "Catecholaminergic stimulant",
           "Contraindication list item with ayahuasca in source slides."),
      Drug("cocaine", "Cocaine", "Recreational Stimulant",
           "Monoamine reuptake inhibition",
           "Contraindication list item with ayahuasca in source slides."),
      Drug("mdma_2cx_dox_nbome", "MDMA / 2C-x / DOx / NBOMe", "Recreational Serotonergic",
           "Serotonergic stimulant/psychedelic cluster",
           "Contraindication cluster with ayahuasca in source slides."),
      Drug("serotonergic_opioids", "Serotonergic Opioids (Tramadol/Methadone/Meperidine/Tapentadol)", "Pharmaceutical Class",
           "Opioid + serotonergic action",
           "Contraindication list item with ayahuasca in source slides."),
      Drug("antipsychotics", "Antipsychotics", "Pharmaceutical Class",
           "Dopamine/serotonin modulation",
           "Mixed source signals; treat as elevated caution/high risk with ayahuasca."),
      Drug("antihypertensives", "Antihypertensives", "Pharmaceutical Class",
           "Blood pressure modulation",
           "Mentioned as risk area and also emergency management context."),
      Drug("benzodiazepines", "Benzodiazepines", "Pharmaceutical Class",
           "GABAergic sedatives",
           "Listed as generally low-risk emergency management option in supplied slides.")
    ]

  /** The closed legend, keyed by classification code. */
  const Legend: map<string, InteractionMetadata> :=
    map[
      "LOW" := InteractionMetadata("Low Risk", "CIRCLE", "#1C8AD1",
                                 "Generally low physiologic interaction risk in source context.", 1),
      "LOW_MOD" := InteractionMetadata("Low Risk, Effect Modulation", "DOWN", "#3EA5E6",
                                 "Low acute risk, but may blunt/decrease/increase subjective effects.", 2),
      "CAU" := InteractionMetadata("Caution / Moderate Risk", "WARN", "#D7CA25",
                                 "Meaningful interaction risk; monitor and/or avoid unless supervised.", 3),
      "UNS" := InteractionMetadata("Unsafe / High Risk", "HEART", "#DD8B28",
                                 "High adverse-event risk; generally avoid.", 4),
      "DAN" := InteractionMetadata("Dangerous / Contraindicated", "X", "#E21B2B",
                                 "Potentially severe or life-threatening interaction risk; avoid.", 5),
      "UNK" := InteractionMetadata("Unknown/Insufficient Data", "INFO", "#6C757D",
                                 "No explicit classification in currently loaded ceremonial source set.", 0),
      "SELF" := InteractionMetadata("Same Entity / N-A", "SELF", "#274F13",
                                 "Diagonal/self pairing; not an interaction pair.", -1)
    ]

  /** The curated pair table.  Every key is two catalogue ids, the smaller
      one first, joined by `Separator`. */
  const InteractionRules: map<string, InteractionEvidence> :=
    map[
      "alcohol|ayahuasca" :=
        InteractionEvidence("DAN", "Advised against; MAOI context and stated potential for dangerous outcomes.",
                            "high",
                            "ayahuasca-interactions.pdf (p1 text)"),
      "amphetamine_stims|ayahuasca" :=
        InteractionEvidence("DAN", "Explicitly contraindicated; risk includes hypertensive crisis/serotonin toxicity.",
                            "high",
                            "Ayahuasca and Drug Interaction.pdf (Drug Contraindications slide)"),
      "antihypertensives|ayahuasca" :=
        InteractionEvidence("CAU", "Listed as risk category and also management context; treat as caution.",
                            "low",
                            "ayahuasca-interactions.pdf + Ayahuasca and Drug Interaction.pdf"),
      "antipsychotics|ayahuasca" :=
        InteractionEvidence("UNS", "Appears in contraindication list; emergency-use context in source makes this high-caution.",
                            "low",
                            "Ayahuasca and Drug Interaction.pdf (The Good + Contraindications slides)"),
      "atypical_ad|psilocybin" :=
        InteractionEvidence("LOW_MOD", "Mostly blunted effects (buspirone/trazodone/mirtazapine entries).",
                            "high",
                            "Psilocybin-Mushrooms-SSRIs-Antidepressant-Interaction-Chart.pdf"),
      "ayahuasca|benzodiazepines" :=
        InteractionEvidence("LOW", "Listed as low-risk emergency combination option in source context.",
                            "medium",
                            "Ayahuasca and Drug Interaction.pdf (The Good slide)"),
      "ayahuasca|cannabis" :=
        InteractionEvidence("LOW_MOD", "Listed among generally lower-risk combinations in source context.",
                            "medium",
                            "Ayahuasca and Drug Interaction.pdf (The Good slide)"),
      "ayahuasca|cocaine" :=
        InteractionEvidence("DAN", "Listed as contraindicated with ayahuasca.",
                            "high",
                            "Ayahuasca and Drug Interaction.pdf (Drug Contraindications slide)"),
      "ayahuasca|five_meo_dmt" :=
        InteractionEvidence("DAN", "Source explicitly states 5-MeO-DMT may be dangerous with MAOIs.",
                            "high",
                            "Ayahuasca and Drug Interaction.pdf (summary slide text)"),
      "ayahuasca|kambo" :=
        InteractionEvidence("CAU", "Caution advised where substances are co-presented in program.",
                            "medium",
                            "ayahuasca-interactions.pdf (p1 text)"),
      "ayahuasca|lsd" :=
        InteractionEvidence("LOW_MOD", "Listed in lower-risk ceremonial/recreational combinations.",
                            "medium",
                            "Ayahuasca and Drug Interaction.pdf (The Good slide)"),
      "ayahuasca|maoi_pharma" :=
        InteractionEvidence("DAN", "Other MAOIs explicitly called out as interaction risks.",
                            "high",
                            "ayahuasca-interactions.pdf (p1 text)"),
      "ayahuasca|mdma_2cx_dox_nbome" :=
        InteractionEvidence("DAN", "Ceremonial/recreational serotonergic phenethylamines listed as contraindicated.",
                            "high",
                            "Ayahuasca and Drug Interaction.pdf (Drug Contraindications slide)"),
      "ayahuasca|mescaline_peyote" :=
        InteractionEvidence("CAU", "Source notes spacing recommendation (>=24h later), indicating caution.",
                            "medium",
                            "Ayahuasca and Drug Interaction.pdf (The Good slide)"),
      "ayahuasca|methylphenidate" :=
        InteractionEvidence("DAN", "Listed in contraindicated stimulant class with ayahuasca.",
                            "high",
                            "Ayahuasca and Drug Interaction.pdf (Drug Contraindications slide)"),
      "ayahuasca|nn_dmt" :=
        InteractionEvidence("LOW_MOD", "Not reported toxic in source context though effects/PK differ by route.",
                            "medium",
                            "Ayahuasca and Drug Interaction.pdf (summary slide text)"),
      "ayahuasca|psilocybin" :=
        InteractionEvidence("CAU", "Reported to intensify effects; not reported toxic but requires caution.",
                            "medium",
                            "Ayahuasca and Drug Interaction.pdf (pharmahuasca section)"),
      "ayahuasca|serotonergic_opioids" :=
        InteractionEvidence("DAN", "Methadone/tramadol/meperidine/tapentadol listed as contraindicated.",
                            "high",
                            "Ayahuasca and Drug Interaction.pdf (Drug Contraindications slide)"),
      "ayahuasca|snri" :=
        InteractionEvidence("DAN", "SNRIs included in contraindicated antidepressant list.",
                            "high",
                            "Ayahuasca and Drug Interaction.pdf (Drug Contraindications slide)"),
      "ayahuasca|ssri" :=
        InteractionEvidence("DAN", "Serotonin syndrome risk explicitly discussed in MAOI context.",
                            "high",
                            "ayahuasca-interactions.pdf + Ayahuasca and Drug Interaction.pdf"),
      "ayahuasca|tobacco_rape" :=
        InteractionEvidence("LOW_MOD", "Generally acceptable with caveats on admixtures.",
                            "medium",
                            "Ayahuasca and Drug Interaction.pdf (The Good slide)"),
      "ayahuasca|tricyclic_ad" :=
        InteractionEvidence("DAN", "Specific tricyclics listed as contraindicated with MAOI context.",
                            "high",
                            "Ayahuasca and Drug Interaction.pdf (Drug Contraindications slide)"),
      "ayahuasca|yopo" :=
        InteractionEvidence("UNS", "Caution noted for yopo blends due 5-MeO-DMT/bufotenine content.",
                            "medium",
                            "Ayahuasca and Drug Interaction.pdf (Good combinations caveat)"),
      "maoi_pharma|psilocybin" :=
        InteractionEvidence("DAN", "Serotonin syndrome or hypertension category in source chart.",
                            "high",
                            "Psilocybin-Mushrooms-SSRIs-Antidepressant-Interaction-Chart.pdf"),
      "ndri_bupropion|psilocybin" :=
        InteractionEvidence("CAU", "Reduced seizure-threshold caution; individualized risk assessment advised.",
                            "high",
                            "Psilocybin-Mushrooms-SSRIs-Antidepressant-Interaction-Chart.pdf"),
      "psilocybin|snri" :=
        InteractionEvidence("LOW_MOD", "Blunted effects with typical 2-week washout guidance.",
                            "high",
                            "Psilocybin-Mushrooms-SSRIs-Antidepressant-Interaction-Chart.pdf"),
      "psilocybin|ssri" :=
        InteractionEvidence("LOW_MOD", "Blunted effects; washout mostly 2 weeks (fluoxetine 6 weeks).",
                            "high",
                            "Psilocybin-Mushrooms-SSRIs-Antidepressant-Interaction-Chart.pdf"),
      "psilocybin|tricyclic_ad" :=
        InteractionEvidence("CAU", "Intensified effects; chart indicates caution with 2-week washout guidance.",
                            "high",
                            "Psilocybin-Mushrooms-SSRIs-Antidepressant-Interaction-Chart.pdf")
    ]

  /** The character `pairKey` puts between the two ids. */
  const Separator: char := '|'

  /** The fixed record returned for a self-pair. */
  const SelfEvidence: InteractionEvidence :=
    InteractionEvidence("SELF", "Same entity selected; this is not an interaction pair.", "n/a", "n/a")

  /** The fixed record returned for a pair the table does not list. */
  const UnknownEvidence: InteractionEvidence :=
    InteractionEvidence("UNK", "No explicit interaction classification in the current ceremonial source set.",
                        "low", "source-gap")

  // ---------------------------------------------------------------------
  // JavaScript's default `sort()` on two strings
  // ---------------------------------------------------------------------

  /** `a` sorts strictly before `b`: compared character by character, and a
      proper prefix before the longer string. */
  predicate LexLess(a: string, b: string)
  {
    if |b| == 0 then false
    else if |a| == 0 then true
    else if a[0] != b[0] then a[0] < b[0]
    else LexLess(a[1..], b[1..])
  }

  lemma {:induction false} LexLessIrreflexive(a: string)
    ensures !LexLess(a, a)
  {
    if |a| > 0 { LexLessIrreflexive(a[1..]); }
  }

  lemma {:induction false} LexLessAsymmetric(a: string, b: string)
    ensures LexLess(a, b) ==> !LexLess(b, a)
  {
    if |a| > 0 && |b| > 0 && a[0] == b[0] { LexLessAsymmetric(a[1..], b[1..]); }
  }

  lemma {:induction false} LexLessTransitive(a: string, b: string, c: string)
    ensures LexLess(a, b) && LexLess(b, c) ==> LexLess(a, c)
  {
    if |a| > 0 && |b| > 0 && |c| > 0 && a[0] == b[0] == c[0] {
      LexLessTransitive(a[1..], b[1..], c[1..]);
    }
  }

  /** Any two different strings are ordered one way or the other. */
  lemma {:induction false} LexLessTotal(a: string, b: string)
    ensures a == b || LexLess(a, b) || LexLess(b, a)
  {
    if |a| > 0 && |b| > 0 && a[0] == b[0] {
      LexLessTotal(a[1..], b[1..]);
      assert a == [a[0]] + a[1..] && b == [b[0]] + b[1..];
    }
  }

  /** `[a, b].sort()`: the same two strings, the smaller one first.  A stable
      sort keeps `a` first unless `b` is strictly smaller. */
  function SortPair(a: string, b: string): (p: (string, string))
    ensures multiset{p.0, p.1} == multiset{a, b}
    ensures !LexLess(p.1, p.0)
  {
    if LexLess(b, a) then LexLessAsymmetric(b, a); (b, a) else (a, b)
  }

  /** Sorting two strings does not depend on the order they come in. */
  lemma SortPairSymmetric(a: string, b: string)
    ensures SortPair(a, b) == SortPair(b, a)
  {
    LexLessTotal(a, b);
    LexLessAsymmetric(a, b);
  }

  // ---------------------------------------------------------------------
  // Canonical pair keys
  // ---------------------------------------------------------------------

  /** `[a, b].sort().join(sep)`: the order-independent key of a pair. */
  function CanonicalKey(a: string, b: string, sep: char): (k: string)
    ensures |k| == |a| + |b| + 1
    ensures exists lo, hi :: multiset{lo, hi} == multiset{a, b} && !LexLess(hi, lo) && k == lo + [sep] + hi
  {
    var p := SortPair(a, b);
    p.0 + [sep] + p.1
  }

  lemma CanonicalKeySymmetric(a: string, b: string, sep: char)
    ensures CanonicalKey(a, b, sep) == CanonicalKey(b, a, sep)
  {
    SortPairSymmetric(a, b);
  }

  /** For an ordered pair the key is the two ids joined as they stand, and
      the reversed pair gives the same key. */
  lemma CanonicalKeyOfOrdered(x: string, y: string, sep: char)
    requires LexLess(x, y)
    ensures CanonicalKey(x, y, sep) == x + [sep] + y == CanonicalKey(y, x, sep)
  {
    LexLessAsymmetric(x, y);
  }

  /** In a join whose left part has no separator, the separator first
      occurs right after the left part. */
  lemma SeparatorPosition(x: string, y: string, sep: char)
    requires sep !in x
    ensures (x + [sep] + y)[|x|] == sep
    ensures forall i | 0 <= i < |x| :: (x + [sep] + y)[i] != sep
  {
  }

  /** Splitting at the first separator undoes a join whose left part has no
      separator. */
  lemma JoinInjective(x1: string, y1: string, x2: string, y2: string, sep: char)
    requires sep !in x1 && sep !in x2
    requires x1 + [sep] + y1 == x2 + [sep] + y2
    ensures x1 == x2 && y1 == y2
  {
    var s := x1 + [sep] + y1;
    SeparatorPosition(x1, y1, sep);
    SeparatorPosition(x2, y2, sep);
    assert |x1| == |x2|;
    assert x1 == s[..|x1|] == x2;
    assert y1 == s[|x1| + 1..] == y2;
  }

  /** When no id contains the separator, the key determines the unordered
      pair: two pairs with the same key are the same two ids. */
  lemma CanonicalKeyInjective(a: string, b: string, c: string, d: string, sep: char)
    requires sep !in a && sep !in b && sep !in c && sep !in d
    requires CanonicalKey(a, b, sep) == CanonicalKey(c, d, sep)
    ensures multiset{a, b} == multiset{c, d}
  {
    var p, q := SortPair(a, b), SortPair(c, d);
    assert p.0 in multiset{a, b} && q.0 in multiset{c, d};
    JoinInjective(p.0, p.1, q.0, q.1, sep);
  }

  /** `pairKey(a, b)`: the ids sorted and joined with `Separator`. */
  function PairKey(a: string, b: string): (k: string)
    ensures exists lo, hi :: multiset{lo, hi} == multiset{a, b} && !LexLess(hi, lo) && k == lo + [Separator] + hi
  {
    CanonicalKey(a, b, Separator)
  }

  /** Central property of the key: the order of the two ids does not matter. */
  lemma PairKeySymmetric(a: string, b: string)
    ensures PairKey(a, b) == PairKey(b, a)
  {
    CanonicalKeySymmetric(a, b, Separator);
  }

  // ---------------------------------------------------------------------
  // Resolution
  // ---------------------------------------------------------------------

  /** The resolution rule of `getInteractionEvidence` over a given pair table:
      a self-pair first, then the table entry under the pair key, then the
      fixed fallback.  Property lookups on the source's record object behave
      as a map lookup here because every pair key contains `Separator`,
      which no inherited property name does. */
  function Resolve(rules: map<string, InteractionEvidence>, drug1: string, drug2: string): (e: InteractionEvidence)
    ensures drug1 == drug2 ==> e == SelfEvidence
    ensures drug1 != drug2 && PairKey(drug1, drug2) in rules ==> e == rules[PairKey(drug1, drug2)]
    ensures drug1 != drug2 && PairKey(drug1, drug2) !in rules ==> e == UnknownEvidence
  {
    if drug1 == drug2 then SelfEvidence
    else
      var key := PairKey(drug1, drug2);
      if key in rules then rules[key] else UnknownEvidence
  }

  /** Resolution is order-independent, whatever the table holds. */
  lemma ResolveSymmetric(rules: map<string, InteractionEvidence>, drug1: string, drug2: string)
    ensures Resolve(rules, drug1, drug2) == Resolve(rules, drug2, drug1)
  {
    PairKeySymmetric(drug1, drug2);
  }

  /** No table entry can override the self-pair rule, even one stored under
      the key the pair would produce. */
  lemma SelfPairAbsolute(rules: map<string, InteractionEvidence>, drug: string)
    ensures Resolve(rules, drug, drug).code == "SELF"
    ensures Resolve(rules, drug, drug).confidence == "n/a" && Resolve(rules, drug, drug).sources == "n/a"
  {
  }

  /** `getInteractionEvidence(drug1, drug2)`: resolution over the curated
      table.  The result always carries a legend code, SELF exactly for a
      self-pair, UNK exactly for an unlisted pair. */
  function GetInteractionEvidence(drug1: string, drug2: string): (e: InteractionEvidence)
    ensures e.code in Legend
    ensures e.code == "SELF" <==> drug1 == drug2
    ensures e.code == "UNK" <==> drug1 != drug2 && PairKey(drug1, drug2) !in InteractionRules
  {
    LegendClosure();
    Resolve(InteractionRules, drug1, drug2)
  }

  lemma GetInteractionEvidenceSymmetric(drug1: string, drug2: string)
    ensures GetInteractionEvidence(drug1, drug2) == GetInteractionEvidence(drug2, drug1)
  {
    ResolveSymmetric(InteractionRules, drug1, drug2);
  }

  /** The severity rank of the resolved code: -1 for a self-pair, 0 for an
      unlisted pair, 1..5 for a listed one. */
  lemma ResolvedRiskScale(drug1: string, drug2: string)
    ensures var rank := Legend[GetInteractionEvidence(drug1, drug2).code].riskScale;
      && (rank == -1 <==> drug1 == drug2)
      && (rank == 0 <==> drug1 != drug2 && PairKey(drug1, drug2) !in InteractionRules)
      && -1 <= rank <= 5
  {
    CodeRank(GetInteractionEvidence(drug1, drug2).code);
  }

  // ---------------------------------------------------------------------
  // Invariants of the constant tables
  // ---------------------------------------------------------------------

  /** The five graded codes, from least to most severe. */
  const GradedCodes: set<string> := {"LOW", "LOW_MOD", "CAU", "UNS", "DAN"}

  /** Every entry of the pair table carries one of the graded codes. */
  lemma RuleCodesGraded()
    ensures forall k | k in InteractionRules :: InteractionRules[k].code in GradedCodes
  {
  }

  /** The legend has exactly the seven codes, with the ranks SELF = -1,
      UNK = 0 and LOW..DAN = 1..5; no two codes share a rank. */
  lemma LegendRanks()
    ensures Legend.Keys == GradedCodes + {"UNK", "SELF"}
    ensures Legend["SELF"].riskScale == -1 && Legend["UNK"].riskScale == 0
    ensures Legend["LOW"].riskScale == 1 && Legend["LOW_MOD"].riskScale == 2 && Legend["CAU"].riskScale == 3
    ensures Legend["UNS"].riskScale == 4 && Legend["DAN"].riskScale == 5
    ensures forall c1, c2 | c1 in Legend && c2 in Legend && c1 != c2 :: Legend[c1].riskScale != Legend[c2].riskScale
  {
  }

  /** What a code's rank says about the code. */
  lemma CodeRank(code: string)
    requires code in Legend
    ensures Legend[code].riskScale == -1 <==> code == "SELF"
    ensures Legend[code].riskScale == 0 <==> code == "UNK"
    ensures -1 <= Legend[code].riskScale <= 5
  {
    LegendRanks();
  }

  /** Every code the pair table uses is a legend code, and neither of the two
      reserved codes. */
  lemma LegendClosure()
    ensures forall k | k in InteractionRules ::
      InteractionRules[k].code in Legend && InteractionRules[k].code !in {"SELF", "UNK"}
  {
    RuleCodesGraded();
    LegendRanks();
  }

  /** The catalogue ids, in catalogue order. */
  const DrugIds: seq<string> :=
    ["ayahuasca", "psilocybin", "nn_dmt", "five_meo_dmt", "mescaline_peyote", "yopo",
     "lsd", "salvia", "belladonna", "brugmansia", "kambo", "tobacco_rape",
     "cannabis", "alcohol", "ssri", "snri", "tricyclic_ad", "maoi_pharma",
     "atypical_ad", "ndri_bupropion", "amphetamine_stims", "methylphenidate", "cocaine", "mdma_2cx_dox_nbome",
     "serotonergic_opioids", "antipsychotics", "antihypertensives", "benzodiazepines"]

  /** `DrugIds` lists exactly the ids of `Drugs`, position by position. */
  lemma CatalogueIds()
    ensures |DrugIds| == |Drugs|
    ensures forall i | 0 <= i < |Drugs| :: Drugs[i].id == DrugIds[i]
  {
  }

  /** A character allowed in a catalogue id: a lower-case ASCII letter, a
      digit or `_`. */
  predicate IdChar(c: char)
  {
    'a' <= c <= 'z' || '0' <= c <= '9' || c == '_'
  }

  /** A non-empty string of id characters. */
  predicate IsIdentifier(s: string)
  {
    s != "" && forall c | c in s :: IdChar(c)
  }

  /** An identifier contains neither separator. */
  lemma IdentifierHasNoSeparator(s: string)
    requires IsIdentifier(s)
    ensures Separator !in s && '-' !in s
  {
  }

  lemma DrugIdsFirstHalf()
    ensures forall i | 0 <= i < 14 :: IsIdentifier(DrugIds[i])
  {
  }

  lemma DrugIdsSecondHalf()
    ensures forall i | 14 <= i < |DrugIds| :: IsIdentifier(DrugIds[i])
  {
  }

  /** Every catalogue id is a non-empty lower-case identifier, so none
      contains the pair-key separator or the `-` favourite ids are joined
      with. */
  lemma DrugIdsWellFormed()
    ensures forall i | 0 <= i < |Drugs| :: IsIdentifier(Drugs[i].id)
    ensures forall i | 0 <= i < |Drugs| :: Separator !in Drugs[i].id && '-' !in Drugs[i].id
  {
    CatalogueIds();
    DrugIdsFirstHalf();
    DrugIdsSecondHalf();
    forall i | 0 <= i < |Drugs|
      ensures Separator !in Drugs[i].id && '-' !in Drugs[i].id
    {
      IdentifierHasNoSeparator(Drugs[i].id);
    }
  }

  /** For identifiers, such as the catalogue ids, the pair key identifies
      the pair: two pairs with the same key are the same two ids. */
  lemma PairKeyIdentifiesPair(a: string, b: string, c: string, d: string)
    requires IsIdentifier(a) && IsIdentifier(b) && IsIdentifier(c) && IsIdentifier(d)
    requires PairKey(a, b) == PairKey(c, d)
    ensures multiset{a, b} == multiset{c, d}
  {
    IdentifierHasNoSeparator(a);
    IdentifierHasNoSeparator(b);
    IdentifierHasNoSeparator(c);
    IdentifierHasNoSeparator(d);
    CanonicalKeyInjective(a, b, c, d, Separator);
  }

  /** The keys of the pair table, in table order. */
  const RuleKeys: seq<string> :=
    ["alcohol|ayahuasca", "amphetamine_stims|ayahuasca", "antihypertensives|ayahuasca",
     "antipsychotics|ayahuasca", "atypical_ad|psilocybin", "ayahuasca|benzodiazepines",
     "ayahuasca|cannabis", "ayahuasca|cocaine", "ayahuasca|five_meo_dmt",
     "ayahuasca|kambo", "ayahuasca|lsd", "ayahuasca|maoi_pharma",
     "ayahuasca|mdma_2cx_dox_nbome", "ayahuasca|mescaline_peyote", "ayahuasca|methylphenidate",
     "ayahuasca|nn_dmt", "ayahuasca|psilocybin", "ayahuasca|serotonergic_opioids",
     "ayahuasca|snri", "ayahuasca|ssri", "ayahuasca|tobacco_rape",
     "ayahuasca|tricyclic_ad", "ayahuasca|yopo", "maoi_pharma|psilocybin",
     "ndri_bupropion|psilocybin", "psilocybin|snri", "psilocybin|ssri",
     "psilocybin|tricyclic_ad"]

  /** `RuleKeys` lists exactly the keys of the pair table. */
  lemma RuleKeysListed()
    ensures forall k | k in InteractionRules :: k in RuleKeys
    ensures forall n | 0 <= n < |RuleKeys| :: RuleKeys[n] in InteractionRules
  {
  }

  /** `k` is `x` and `y` joined by the separator, `x` sorting first. */
  predicate SortedJoin(k: string, x: string, y: string)
  {
    LexLess(x, y) && k == x + [Separator] + y
  }

  /** `k` is the key `pairKey` builds for two of the ids `ids`: their join
      in sorted order. */
  ghost predicate CanonicalKeyOver(ids: seq<string>, k: string)
  {
    exists i, j :: 0 <= i < |ids| && 0 <= j < |ids| && SortedJoin(k, ids[i], ids[j])
  }

  /** Resolving the two halves of a sorted join that is a table key, in
      either order, returns that key's entry. */
  lemma ResolveSortedJoin(rules: map<string, InteractionEvidence>, k: string, x: string, y: string)
    requires k in rules && SortedJoin(k, x, y)
    ensures x != y
    ensures Resolve(rules, x, y) == rules[k] && Resolve(rules, y, x) == rules[k]
  {
    LexLessIrreflexive(x);
    CanonicalKeyOfOrdered(x, y, Separator);
  }

  /** Over any table whose keys are all sorted joins of ids from `ids`, each
      entry is what resolution returns for two distinct ids of `ids`, in
      either order. */
  lemma ResolveReachesEveryEntry(rules: map<string, InteractionEvidence>, ids: seq<string>)
    requires forall k | k in rules :: CanonicalKeyOver(ids, k)
    ensures forall k | k in rules :: exists i, j ::
      0 <= i < |ids| && 0 <= j < |ids| && ids[i] != ids[j] &&
      Resolve(rules, ids[i], ids[j]) == rules[k] && Resolve(rules, ids[j], ids[i]) == rules[k]
  {
    forall k | k in rules
      ensures exists i, j ::
        0 <= i < |ids| && 0 <= j < |ids| && ids[i] != ids[j] &&
        Resolve(rules, ids[i], ids[j]) == rules[k] && Resolve(rules, ids[j], ids[i]) == rules[k]
    {
      var i, j :| 0 <= i < |ids| && 0 <= j < |ids| && SortedJoin(k, ids[i], ids[j]);
      ResolveSortedJoin(rules, k, ids[i], ids[j]);
    }
  }

  // One lemma per table key: the key split at the separator, the two halves
  // in sorted order, and where each half stands in the catalogue.  The facts
  // are split key by key, and stated over the short lists `DrugIds` and
  // `RuleKeys` rather than the full tables, because proofs that combine many
  // long string literals grow too costly for the solver.

  lemma RuleKey0()
    ensures CanonicalKeyOver(DrugIds, RuleKeys[0])
  {
    assert RuleKeys[0] == "alcohol|ayahuasca" == "alcohol" + [Separator] + "ayahuasca";
    assert LexLess("alcohol", "ayahuasca");
    assert DrugIds[13] == "alcohol" && DrugIds[0] == "ayahuasca";
  }

  lemma RuleKey1()
    ensures CanonicalKeyOver(DrugIds, RuleKeys[1])
  {
    assert RuleKeys[1] == "amphetamine_stims|ayahuasca" == "amphetamine_stims" + [Separator] + "ayahuasca";
    assert LexLess("amphetamine_stims", "ayahuasca");
    assert DrugIds[20] == "amphetamine_stims" && DrugIds[0] == "ayahuasca";
  }

  lemma RuleKey2()
    ensures CanonicalKeyOver(DrugIds, RuleKeys[2])
  {
    assert RuleKeys[2] == "antihypertensives|ayahuasca" == "antihypertensives" + [Separator] + "ayahuasca";
    assert LexLess("antihypertensives", "ayahuasca");
    assert DrugIds[26] == "antihypertensives" && DrugIds[0] == "ayahuasca";
  }

  lemma RuleKey3()
    ensures CanonicalKeyOver(DrugIds, RuleKeys[3])
  {
    assert RuleKeys[3] == "antipsychotics|ayahuasca" == "antipsychotics" + [Separator] + "ayahuasca";
    assert LexLess("antipsychotics", "ayahuasca");
    assert DrugIds[25] == "antipsychotics" && DrugIds[0] == "ayahuasca";
  }

  lemma RuleKey4()
    ensures CanonicalKeyOver(DrugIds, RuleKeys[4])
  {
    assert RuleKeys[4] == "atypical_ad|psilocybin" == "atypical_ad" + [Separator] + "psilocybin";
    assert LexLess("atypical_ad", "psilocybin");
    assert DrugIds[18] == "atypical_ad" && DrugIds[1] == "psilocybin";
  }

  lemma RuleKey5()
    ensures CanonicalKeyOver(DrugIds, RuleKeys[5])
  {
    assert RuleKeys[5] == "ayahuasca|benzodiazepines" == "ayahuasca" + [Separator] + "benzodiazepines";
    assert LexLess("ayahuasca", "benzodiazepines");
    assert DrugIds[0] == "ayahuasca" && DrugIds[27] == "benzodiazepines";
  }

  lemma RuleKey6()
    ensures CanonicalKeyOver(DrugIds, RuleKeys[6])
  {
    assert RuleKeys[6] == "ayahuasca|cannabis" == "ayahuasca" + [Separator] + "cannabis";
    assert LexLess("ayahuasca", "cannabis");
    assert DrugIds[0] == "ayahuasca" && DrugIds[12] == "cannabis";
  }

  lemma RuleKey7()
    ensures CanonicalKeyOver(DrugIds, RuleKeys[7])
  {
    assert RuleKeys[7] == "ayahuasca|cocaine" == "ayahuasca" + [Separator] + "cocaine";
    assert LexLess("ayahuasca", "cocaine");
    assert DrugIds[0] == "ayahuasca" && DrugIds[22] == "cocaine";
  }

  lemma RuleKey8()
    ensures CanonicalKeyOver(DrugIds, RuleKeys[8])
  {
    assert RuleKeys[8] == "ayahuasca|five_meo_dmt" == "ayahuasca" + [Separator] + "five_meo_dmt";
    assert LexLess("ayahuasca", "five_meo_dmt");
    assert DrugIds[0] == "ayahuasca" && DrugIds[3] == "five_meo_dmt";
  }

  lemma RuleKey9()
    ensures CanonicalKeyOver(DrugIds, RuleKeys[9])
  {
    assert RuleKeys[9] == "ayahuasca|kambo" == "ayahuasca" + [Separator] + "kambo";
    assert LexLess("ayahuasca", "kambo");
    assert DrugIds[0] == "ayahuasca" && DrugIds[10] == "kambo";
  }

  lemma RuleKey10()
    ensures CanonicalKeyOver(DrugIds, RuleKeys[10])
  {
    assert RuleKeys[10] == "ayahuasca|lsd" == "ayahuasca" + [Separator] + "lsd";
    assert LexLess("ayahuasca", "lsd");
    assert DrugIds[0] == "ayahuasca" && DrugIds[6] == "lsd";
  }

  lemma RuleKey11()
    ensures CanonicalKeyOver(DrugIds, RuleKeys[11])
  {
    assert RuleKeys[11] == "ayahuasca|maoi_pharma" == "ayahuasca" + [Separator] + "maoi_pharma";
    assert LexLess("ayahuasca", "maoi_pharma");
    assert DrugIds[0] == "ayahuasca" && DrugIds[17] == "maoi_pharma";
  }

  lemma RuleKey12()
    ensures CanonicalKeyOver(DrugIds, RuleKeys[12])
  {
    assert RuleKeys[12] == "ayahuasca|mdma_2cx_dox_nbome" == "ayahuasca" + [Separator] + "mdma_2cx_dox_nbome";
    assert LexLess("ayahuasca", "mdma_2cx_dox_nbome");
    assert DrugIds[0] == "ayahuasca" && DrugIds[23] == "mdma_2cx_dox_nbome";
  }

  lemma RuleKey13()
    ensures CanonicalKeyOver(DrugIds, RuleKeys[13])
  {
    assert RuleKeys[13] == "ayahuasca|mescaline_peyote" == "ayahuasca" + [Separator] + "mescaline_peyote";
    assert LexLess("ayahuasca", "mescaline_peyote");
    assert DrugIds[0] == "ayahuasca" && DrugIds[4] == "mescaline_peyote";
  }

  lemma RuleKey14()
    ensures CanonicalKeyOver(DrugIds, RuleKeys[14])
  {
    assert RuleKeys[14] == "ayahuasca|methylphenidate" == "ayahuasca" + [Separator] + "methylphenidate";
    assert LexLess("ayahuasca", "methylphenidate");
    assert DrugIds[0] == "ayahuasca" && DrugIds[21] == "methylphenidate";
  }

  lemma RuleKey15()
    ensures CanonicalKeyOver(DrugIds, RuleKeys[15])
  {
    assert RuleKeys[15] == "ayahuasca|nn_dmt" == "ayahuasca" + [Separator] + "nn_dmt";
    assert LexLess("ayahuasca", "nn_dmt");
    assert DrugIds[0] == "ayahuasca" && DrugIds[2] == "nn_dmt";
  }

  lemma RuleKey16()
    ensures CanonicalKeyOver(DrugIds, RuleKeys[16])
  {
    assert RuleKeys[16] == "ayahuasca|psilocybin" == "ayahuasca" + [Separator] + "psilocybin";
    assert LexLess("ayahuasca", "psilocybin");
    assert DrugIds[0] == "ayahuasca" && DrugIds[1] == "psilocybin";
  }

  lemma RuleKey17()
    ensures CanonicalKeyOver(DrugIds, RuleKeys[17])
  {
    assert RuleKeys[17] == "ayahuasca|serotonergic_opioids" == "ayahuasca" + [Separator] + "serotonergic_opioids";
    assert LexLess("ayahuasca", "serotonergic_opioids");
    assert DrugIds[0] == "ayahuasca" && DrugIds[24] == "serotonergic_opioids";
  }

  lemma RuleKey18()
    ensures CanonicalKeyOver(DrugIds, RuleKeys[18])
  {
    assert RuleKeys[18] == "ayahuasca|snri" == "ayahuasca" + [Separator] + "snri";
    assert LexLess("ayahuasca", "snri");
    assert DrugIds[0] == "ayahuasca" && DrugIds[15] == "snri";
  }

  lemma RuleKey19()
    ensures CanonicalKeyOver(DrugIds, RuleKeys[19])
  {
    assert RuleKeys[19] == "ayahuasca|ssri" == "ayahuasca" + [Separator] + "ssri";
    assert LexLess("ayahuasca", "ssri");
    assert DrugIds[0] == "ayahuasca" && DrugIds[14] == "ssri";
  }

  lemma RuleKey20()
    ensures CanonicalKeyOver(DrugIds, RuleKeys[20])
  {
    assert RuleKeys[20] == "ayahuasca|tobacco_rape" == "ayahuasca" + [Separator] + "tobacco_rape";
    assert LexLess("ayahuasca", "tobacco_rape");
    assert DrugIds[0] == "ayahuasca" && DrugIds[11] == "tobacco_rape";
  }

  lemma RuleKey21()
    ensures CanonicalKeyOver(DrugIds, RuleKeys[21])
  {
    assert RuleKeys[21] == "ayahuasca|tricyclic_ad" == "ayahuasca" + [Separator] + "tricyclic_ad";
    assert LexLess("ayahuasca", "tricyclic_ad");
    assert DrugIds[0] == "ayahuasca" && DrugIds[16] == "tricyclic_ad";
  }

  lemma RuleKey22()
    ensures CanonicalKeyOver(DrugIds, RuleKeys[22])
  {
    assert RuleKeys[22] == "ayahuasca|yopo" == "ayahuasca" + [Separator] + "yopo";
    assert LexLess("ayahuasca", "yopo");
    assert DrugIds[0] == "ayahuasca" && DrugIds[5] == "yopo";
  }

  lemma RuleKey23()
    ensures CanonicalKeyOver(DrugIds, RuleKeys[23])
  {
    assert RuleKeys[23] == "maoi_pharma|psilocybin" == "maoi_pharma" + [Separator] + "psilocybin";
    assert LexLess("maoi_pharma", "psilocybin");
    assert DrugIds[17] == "maoi_pharma" && DrugIds[1] == "psilocybin";
  }

  lemma RuleKey24()
    ensures CanonicalKeyOver(DrugIds, RuleKeys[24])
  {
    assert RuleKeys[24] == "ndri_bupropion|psilocybin" == "ndri_bupropion" + [Separator] + "psilocybin";
    assert LexLess("ndri_bupropion", "psilocybin");
    assert DrugIds[19] == "ndri_bupropion" && DrugIds[1] == "psilocybin";
  }

  lemma RuleKey25()
    ensures CanonicalKeyOver(DrugIds, RuleKeys[25])
  {
    assert RuleKeys[25] == "psilocybin|snri" == "psilocybin" + [Separator] + "snri";
    assert LexLess("psilocybin", "snri");
    assert DrugIds[1] == "psilocybin" && DrugIds[15] == "snri";
  }

  lemma RuleKey26()
    ensures CanonicalKeyOver(DrugIds, RuleKeys[26])
  {
    assert RuleKeys[26] == "psilocybin|ssri" == "psilocybin" + [Separator] + "ssri";
    assert LexLess("psilocybin", "ssri");
    assert DrugIds[1] == "psilocybin" && DrugIds[14] == "ssri";
  }

  lemma RuleKey27()
    ensures CanonicalKeyOver(DrugIds, RuleKeys[27])
  {
    assert RuleKeys[27] == "psilocybin|tricyclic_ad" == "psilocybin" + [Separator] + "tricyclic_ad";
    assert LexLess("psilocybin", "tricyclic_ad");
    assert DrugIds[1] == "psilocybin" && DrugIds[16] == "tricyclic_ad";
  }

  lemma RuleKeyAt(n: nat)
    requires n < |RuleKeys|
    ensures CanonicalKeyOver(DrugIds, RuleKeys[n])
  {
    if n == 0 { RuleKey0(); }
    else if n == 1 { RuleKey1(); }
    else if n == 2 { RuleKey2(); }
    else if n == 3 { RuleKey3(); }
    else if n == 4 { RuleKey4(); }
    else if n == 5 { RuleKey5(); }
    else if n == 6 { RuleKey6(); }
    else if n == 7 { RuleKey7(); }
    else if n == 8 { RuleKey8(); }
    else if n == 9 { RuleKey9(); }
    else if n == 10 { RuleKey10(); }
    else if n == 11 { RuleKey11(); }
    else if n == 12 { RuleKey12(); }
    else if n == 13 { RuleKey13(); }
    else if n == 14 { RuleKey14(); }
    else if n == 15 { RuleKey15(); }
    else if n == 16 { RuleKey16(); }
    else if n == 17 { RuleKey17(); }
    else if n == 18 { RuleKey18(); }
    else if n == 19 { RuleKey19(); }
    else if n == 20 { RuleKey20(); }
    else if n == 21 { RuleKey21(); }
    else if n == 22 { RuleKey22(); }
    else if n == 23 { RuleKey23(); }
    else if n == 24 { RuleKey24(); }
    else if n == 25 { RuleKey25(); }
    else if n == 26 { RuleKey26(); }
    else { RuleKey27(); }
  }

  /** Every table key is two catalogue ids, already in sorted order, joined
      by the separator. */
  lemma RuleKeysCanonical()
    ensures forall k | k in InteractionRules :: CanonicalKeyOver(DrugIds, k)
  {
    RuleKeysListed();
    forall n | 0 <= n < |RuleKeys|
      ensures CanonicalKeyOver(DrugIds, RuleKeys[n])
    {
      RuleKeyAt(n);
    }
  }

  /** Every table entry is what the resolver returns for some pair of
      distinct catalogue ids, in either order: no entry is dead data.  (The
      ids are those of `Drugs`, by `CatalogueIds`.) */
  lemma EveryRuleReachable()
    ensures forall k | k in InteractionRules :: exists i, j ::
      0 <= i < |DrugIds| && 0 <= j < |DrugIds| && DrugIds[i] != DrugIds[j] &&
      GetInteractionEvidence(DrugIds[i], DrugIds[j]) == InteractionRules[k] &&
      GetInteractionEvidence(DrugIds[j], DrugIds[i]) == InteractionRules[k]
  {
    RuleKeysCanonical();
    ResolveReachesEveryEntry(InteractionRules, DrugIds);
  }

  // Concrete resolutions over the curated table.

  // Each example in three steps: the key the pair builds, the table's
  // answer for that key, and the resolution that combines the two.

  lemma AyahuascaAlcoholKey()
    ensures PairKey("ayahuasca", "alcohol") == "alcohol|ayahuasca" == PairKey("alcohol", "ayahuasca")
  {
    assert LexLess("alcohol", "ayahuasca");
    CanonicalKeyOfOrdered("alcohol", "ayahuasca", Separator);
  }

  lemma AlcoholAyahuascaEntry()
    ensures "alcohol|ayahuasca" in InteractionRules
    ensures InteractionRules["alcohol|ayahuasca"].code == "DAN"
    ensures InteractionRules["alcohol|ayahuasca"].confidence == "high"
  {
  }

  /** `ayahuasca` with `alcohol`, in either order, is the DAN entry of high
      confidence. */
  lemma AyahuascaAlcohol()
    ensures GetInteractionEvidence("ayahuasca", "alcohol").code == "DAN"
    ensures GetInteractionEvidence("ayahuasca", "alcohol").confidence == "high"
    ensures GetInteractionEvidence("alcohol", "ayahuasca") == GetInteractionEvidence("ayahuasca", "alcohol")
  {
    AyahuascaAlcoholKey();
    AlcoholAyahuascaEntry();
  }

  /** A self-pair resolves to SELF even for an id the table lists. */
  lemma PsilocybinSelf()
    ensures GetInteractionEvidence("psilocybin", "psilocybin").code == "SELF"
  {
  }

  lemma PsilocybinSsriKey()
    ensures PairKey("psilocybin", "ssri") == "psilocybin|ssri"
  {
    assert LexLess("psilocybin", "ssri");
    CanonicalKeyOfOrdered("psilocybin", "ssri", Separator);
  }

  lemma PsilocybinSsriEntry()
    ensures "psilocybin|ssri" in InteractionRules
    ensures InteractionRules["psilocybin|ssri"].code == "LOW_MOD"
  {
  }

  /** `psilocybin` with `ssri` is the table's LOW_MOD entry, returned as
      it stands. */
  lemma PsilocybinSsri()
    ensures GetInteractionEvidence("psilocybin", "ssri") == InteractionRules["psilocybin|ssri"]
    ensures GetInteractionEvidence("psilocybin", "ssri").code == "LOW_MOD"
  {
    PsilocybinSsriKey();
    PsilocybinSsriEntry();
  }

  lemma SalviaBelladonnaKey()
    ensures PairKey("salvia", "belladonna") == "belladonna|salvia"
  {
    assert LexLess("belladonna", "salvia");
    CanonicalKeyOfOrdered("belladonna", "salvia", Separator);
  }

  lemma BelladonnaSalviaAbsent()
    ensures "belladonna|salvia" !in InteractionRules
  {
  }

  /** Two catalogue ids the table does not pair fall back to UNK. */
  lemma SalviaBelladonnaUnlisted()
    ensures GetInteractionEvidence("salvia", "belladonna") == UnknownEvidence
  {
    SalviaBelladonnaKey();
    BelladonnaSalviaAbsent();
  }
}

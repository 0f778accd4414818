/** The label catalogs of the two service variants and the remedy table. */
module Catalog {

  /** `CLASS_NAMES` of api/main.py, in the order of the classifier's outputs. */
  const MainClassNames: seq<string> := [
    "Aeromoniasis (Bacterial disease)",
    "Bacterial Red disease",
    "Bacterial gill disease",
    "Fin and Tail Rot disease(Viral)",
    "Healthy Fish",
    "Parasitic diseases",
    "Saprolegniasis (Fungal disease)"
  ]

  /** `CLASS_NAMES` of api/main_1.py: the same names, "Fin and Tail Rot" moved to the end. */
  const Main1ClassNames: seq<string> := [
    "Aeromoniasis (Bacterial disease)",
    "Bacterial Red disease",
    "Bacterial gill disease",
    "Healthy Fish",
    "Parasitic diseases",
    "Saprolegniasis (Fungal disease)",
    "Fin and Tail Rot disease(Viral)"
  ]

  /** `SOLUTIONS` of api/main.py: label to remedy. */
  const MainSolutions: map<string, string> := map[
    "Aeromoniasis (Bacterial disease)" := "Use antibiotics like Oxytetracycline in water.",
    "Bacterial Red disease" := "Treat water with potassium permanganate.",
    "Bacterial gill disease" := "Improve water quality and add formalin to water.",
    "Healthy Fish" := "No action needed. Fish is healthy.",
    "Parasitic diseases" := "Use anti-parasitic treatment like Praziquantel.",
    "Saprolegniasis (Fungal disease)" := "Apply malachite green or salt treatment.",
    "Fin and Tail Rot disease(Viral)" := "Isolate fish and improve water sanitation."
  ]

  /** The default of `SOLUTIONS.get`. */
  const NoSolution: string := "No solution available."

  /** `table.get(label, "No solution available.")`: total, never a lookup error. */
  function SolutionFor(table: map<string, string>, name: string): (r: string)
    ensures name in table ==> r == table[name]
    ensures name !in table ==> r == NoSolution
  {
    if name in table then table[name] else NoSolution
  }

  /** No name occurs twice, so an index determines its label and back. */
  predicate Distinct(names: seq<string>) {
    forall i, j :: 0 <= i < j < |names| ==> names[i] != names[j]
  }

  /**
   * The remedy table covers the main catalog exactly: every one of its seven
   * labels has a remedy, so the fallback is never used for a predicted label,
   * and the table holds no other label.
   */
  lemma SolutionsCoverMainCatalog()
    ensures |MainClassNames| == 7 && Distinct(MainClassNames)
    ensures MainSolutions.Keys == set i | 0 <= i < |MainClassNames| :: MainClassNames[i]
    ensures forall i :: 0 <= i < |MainClassNames| ==>
              MainClassNames[i] in MainSolutions && SolutionFor(MainSolutions, MainClassNames[i]) != NoSolution
  {
    var names := set i | 0 <= i < |MainClassNames| :: MainClassNames[i];
    assert MainClassNames[0] in names && MainClassNames[1] in names && MainClassNames[2] in names;
    assert MainClassNames[3] in names && MainClassNames[4] in names && MainClassNames[5] in names;
    assert MainClassNames[6] in names;
  }

  /**
   * api/main_1.py lists the labels of api/main.py in another order: the label
   * at index 3 is moved to the end and the later ones shift down by one.
   */
  lemma Main1ReordersMain()
    ensures |Main1ClassNames| == |MainClassNames| == 7 && Distinct(Main1ClassNames)
    ensures Main1ClassNames == MainClassNames[..3] + MainClassNames[4..] + [MainClassNames[3]]
  {
    assert Distinct(Main1ClassNames);
  }

  /** The two catalogs hold the same labels, and agree on the first three indices only. */
  lemma Main1SameLabelsOtherOrder()
    ensures multiset(Main1ClassNames) == multiset(MainClassNames)
    ensures forall i :: 0 <= i < 3 ==> Main1ClassNames[i] == MainClassNames[i]
  {
    assert Main1ClassNames == MainClassNames[..3] + MainClassNames[4..] + [MainClassNames[3]];
    assert MainClassNames == MainClassNames[..3] + [MainClassNames[3]] + MainClassNames[4..];
  }

  /** From index 3 on, each index names a different label in the two catalogs. */
  lemma Main1DiffersFromIndex3()
    ensures forall i :: 3 <= i < 7 ==> Main1ClassNames[i] != MainClassNames[i]
  {
    Main1ReordersMain();
    SolutionsCoverMainCatalog();
  }
}

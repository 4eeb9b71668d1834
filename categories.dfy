/**
 * The comparator's static table from raw smell labels (free-text names given by the
 * language model, rule keys of the static analyser) to the canonical categories, with
 * "Outros" as the bucket for every label the table does not know.
 */
module SmellCategories {
  import Tally

  /** The default bucket for unmapped labels. */
  const Other: string := "Outros"

  /** The label-to-category table, language-model labels first, then analyser rule keys. */
  const CategoryTable: map<string, string> := map[
    "Long Method" := "Long Method",
    "God Class" := "God Class",
    "God Object" := "God Class",
    "Large Class" := "God Class",
    "Duplicate Code" := "Duplicate Code",
    "Duplicated Logic" := "Duplicate Code",
    "Magic Numbers" := "Magic Numbers",
    "Feature Envy" := "Feature Envy",
    "Data Class" := "Data Class",
    "Exception Handling" := "Exception Handling",
    "java:S1192" := "Duplicate Code",
    "java:S112" := "Exception Handling",
    "java:S1130" := "Exception Handling",
    "java:S138" := "Long Method",
    "java:S1448" := "God Class",
    "java:S1200" := "God Class",
    "java:S109" := "Magic Numbers",
    "java:S3400" := "Magic Numbers",
    "java:S1144" := "Magic Numbers",
    "java:S1172" := "Feature Envy",
    "java:S1104" := "Data Class",
    "java:S1450" := "Data Class"
  ]

  /** The categories that question 3 scores, in the order of its report. */
  const Categories: seq<string> := [
    "Long Method", "God Class", "Duplicate Code", "Feature Envy",
    "Data Class", "Magic Numbers", "Exception Handling", "Outros"
  ]

  /**
   * `categories_mapping.get(raw, "Outros")`. Total: every label lands in one of the
   * scored categories, so no finding is ever dropped from the per-category analysis.
   */
  function Normalize(raw: string): (category: string)
    ensures category in Categories
    ensures raw !in CategoryTable ==> category == Other
  {
    if raw in CategoryTable then CategoryTable[raw] else Other
  }

  /** The scored categories are eight distinct names. */
  lemma CategoriesAreDistinct()
    ensures |Categories| == 8 && Tally.Distinct(Categories)
  {
  }

  /** Synonyms land on the category of the same smell. */
  lemma NormalizeSynonyms()
    ensures Normalize("God Object") == "God Class" && Normalize("Large Class") == "God Class"
  {
  }

  /** A rule key of the analyser lands on the category of the smell it checks. */
  lemma NormalizeRuleKey()
    ensures Normalize("java:S138") == "Long Method"
  {
  }

  /** A label the table does not know goes to the default bucket. */
  lemma NormalizeUnknown()
    ensures Normalize("Long Parameter List") == Other
  {
    assert "Long Parameter List" !in CategoryTable;
  }

  /** No category name holds a colon, so it can close a `file:line:category` key unambiguously. */
  lemma CategoriesHaveNoColon(category: string)
    requires category in Categories
    ensures ':' !in category
  {
  }
}

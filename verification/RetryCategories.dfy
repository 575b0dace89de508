/** Failure categories and the bounds on retries. */
module RetryCategories {
  datatype Category =
    | Transient | Validation | Execution
    | Approval | MissingInput
    | Authorization | ToolNotFound | Permanent

  const RETRYABLE_CATEGORIES: set<Category> := {Transient, Validation, Execution}
  const HUMAN_WAIT_CATEGORIES: set<Category> := {Approval, MissingInput}
  const NON_RETRYABLE_CATEGORIES: set<Category> := {Authorization, ToolNotFound, Permanent}

  const MAX_EXECUTION_RETRIES := 5
  const MAX_STEP_RETRIES := 3

  /** Which failures are retried, which wait for a human, and which are final. */
  lemma CategoriesAre(category: Category)
    ensures category in RETRYABLE_CATEGORIES <==> category in {Transient, Validation, Execution}
    ensures category in HUMAN_WAIT_CATEGORIES <==> category in {Approval, MissingInput}
    ensures category in NON_RETRYABLE_CATEGORIES <==> category in {Authorization, ToolNotFound, Permanent}
  {
  }

  /** Each category is in exactly one of the three sets. */
  lemma CategoriesPartition(category: Category)
    ensures category in RETRYABLE_CATEGORIES
       <==> (category !in HUMAN_WAIT_CATEGORIES && category !in NON_RETRYABLE_CATEGORIES)
    ensures category in HUMAN_WAIT_CATEGORIES ==> category !in NON_RETRYABLE_CATEGORIES
  {
  }
}

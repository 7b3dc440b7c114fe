/** The problem record as the problem-list endpoint returns it to the pages
    that list problems. */
module Problems {

  /** `_id`, `title`, `difficulty` and `tags` of one problem; `tags` holds a
      single tag name. */
  datatype Problem = Problem(id: string, title: string, difficulty: string, tags: string)

  /** The difficulties the problem schema admits (all lower-case). */
  predicate SchemaDifficulty(d: string) {
    d == "easy" || d == "medium" || d == "hard"
  }
}

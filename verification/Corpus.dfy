/** What the parts of the recall benchmark name alike. */
module Corpus {
  type DocId = string
}

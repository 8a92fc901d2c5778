/** The bundled, read-only poem dataset shared by the Home, Library and PunchIn pages. */
module Poems {
  /** One record of the dataset. The verse lines are a single field `lines`: the Library page
      reads them as `poem.lines`, the PunchIn page as `poem.content`; the model keeps one field. */
  datatype Poem = Poem(id: int, title: string, author: string, dynasty: string, lines: seq<string>)

  /** The dataset's ids are 1-based and dense: the poem at position i has id i + 1. */
  predicate DenseIds(poems: seq<Poem>)
  {
    forall i :: 0 <= i < |poems| ==> poems[i].id == i + 1
  }
}

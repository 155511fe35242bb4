/** The recipe record: the shape stored documents have, and the payload the
    create form writes. */
module Recipes {

  datatype Option<T> = None | Some(value: T)

  /** The three values the form's difficulty select offers. */
  datatype Difficulty = Facile | Media | Difficile

  /** A stored recipe document, as read back from the "recipes" collection. The
      optional fields may be missing from a document. */
  datatype Recipe = Recipe(
    id: string,
    title: string,
    description: string,
    time: int,
    difficulty: Difficulty,
    imageUrl: Option<string>,
    userId: string,
    ingredients: Option<seq<string>>,
    steps: Option<seq<string>>)

  /** The document the create form hands to the store; the store assigns the id.
      `createdAt` is the clock reading at the moment the record is built. */
  datatype NewRecipe = NewRecipe(
    title: string,
    description: string,
    time: int,
    difficulty: Difficulty,
    userId: string,
    ingredients: seq<string>,
    steps: seq<string>,
    imageUrl: string,
    createdAt: nat)
}

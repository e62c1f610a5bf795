/**
  StringExtensions.cs declares the same helper a second time, for any
  collection despite the class name.
*/
module StringExtensions {
  import CollectionExtensions

  /** `DecideEnding`: "s" unless the collection holds exactly one element. */
  function DecideEnding<T>(collection: seq<T>): (r: string)
    ensures r == "s" <==> |collection| != 1
    ensures r != "s" ==> r == ""
  {
    if |collection| == 1 then "" else "s"
  }

  /** The two copies agree on every collection. */
  lemma SameAsCollectionExtensions<T>(collection: seq<T>)
    ensures DecideEnding(collection) == CollectionExtensions.DecideEnding(collection)
  {
  }
}

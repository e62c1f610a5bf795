/** The plural ending helper of ICollectionExtensions.cs. */
module CollectionExtensions {

  /** `DecideEnding`: no ending for exactly one element, "s" otherwise (zero included). */
  function DecideEnding<T>(collection: seq<T>): (r: string)
    ensures |r| <= 1
    ensures r == "" <==> |collection| == 1
    ensures r != "" ==> r == "s"
  {
    if |collection| == 1 then "" else "s"
  }
}

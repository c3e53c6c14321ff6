/**
 * The home page's queue effect (frontend/src/pages/home/HomePage.tsx): once
 * the three song lists have all loaded, the player queue is initialised
 * with their concatenation.
 */
module HomeQueue {
  import opened Optional

  /**
   * The list handed to `initializeQueue`, or `None` when the effect does not
   * call it: the queue is initialised exactly when none of the three lists is empty.
   */
  function QueueToInitialize<T>(featured: seq<T>, madeForYou: seq<T>, trending: seq<T>): (r: Option<seq<T>>)
    ensures r.Some? <==> featured != [] && madeForYou != [] && trending != []
  {
    if |madeForYou| > 0 && |featured| > 0 && |trending| > 0 then Some(featured + madeForYou + trending)
    else None
  }

  /**
   * The queue is the three lists in the order featured, made for you,
   * trending, each one whole and contiguous at offsets 0, |featured| and
   * |featured| + |madeForYou|, with every duplicate kept.
   */
  lemma QueueLayout<T>(featured: seq<T>, madeForYou: seq<T>, trending: seq<T>)
    requires QueueToInitialize(featured, madeForYou, trending).Some?
    ensures var q := QueueToInitialize(featured, madeForYou, trending).value;
      && |q| == |featured| + |madeForYou| + |trending|
      && q[..|featured|] == featured
      && q[|featured|..|featured| + |madeForYou|] == madeForYou
      && q[|featured| + |madeForYou|..] == trending
      && multiset(q) == multiset(featured) + multiset(madeForYou) + multiset(trending)
  {
    var q := featured + madeForYou + trending;
    assert q[..|featured|] == featured;
    assert q[|featured|..|featured| + |madeForYou|] == madeForYou;
    assert q[|featured| + |madeForYou|..] == trending;
  }
}

/**
 * The previous/next buttons shared by the three behavioural tests: the
 * question index moves by one and never leaves the question list.
 */
module Navigation {

  /** `currentIndex < count - 1 && setCurrentIndex(i => i + 1)`. */
  function Next(index: nat, count: nat): (r: nat)
    ensures index < count ==> r < count
    ensures r == index + 1 <==> index + 1 < count
    ensures r == index || r == index + 1
  {
    if index < count - 1 then index + 1 else index
  }

  /** `currentIndex > 0 && setCurrentIndex(i => i - 1)`. */
  function Previous(index: nat): (r: nat)
    ensures r <= index
    ensures r == index <==> index == 0
  {
    if index > 0 then index - 1 else index
  }

  /** Next then previous, or previous then next, come back to the same question. */
  lemma NextPreviousInverse(index: nat, count: nat)
    ensures index + 1 < count ==> Previous(Next(index, count)) == index
    ensures 0 < index < count ==> Next(Previous(index), count) == index
  {
  }
}

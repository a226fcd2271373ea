/** The tailor card: a star row for the rating, at most three specialty
    badges, and an avatar with a placeholder image and an initial. */
module TailorCard {
  import opened JsValues
  import opened Ui
  import opened Recommendations

  datatype Star = Full | HalfStar | Empty

  /** `Math.floor(rating)` */
  function FullStars(rating: real): int
  {
    rating.Floor
  }

  /** `rating % 1 !== 0`: the rating is not a whole number. */
  predicate HasHalfStar(rating: real)
  {
    rating != rating.Floor as real
  }

  /** `5 - fullStars - (halfStar ? 1 : 0)` */
  function EmptyStars(rating: real): int
  {
    5 - FullStars(rating) - (if HasHalfStar(rating) then 1 else 0)
  }

  /** The star row `StarRating` draws, or `None` when a count is negative and
      `Array(n)` throws. */
  function StarRow(rating: real): (row: Option<seq<Star>>)
    ensures row.Some? <==> FullStars(rating) >= 0 && EmptyStars(rating) >= 0
    ensures row.Some? ==> |row.value| == 5
    ensures row.Some? ==> forall i :: 0 <= i < |row.value| ==>
      (row.value[i] == Full <==> i < FullStars(rating)) &&
      (row.value[i] == HalfStar <==> HasHalfStar(rating) && i == FullStars(rating))
  {
    var full := FullStars(rating);
    var empty := EmptyStars(rating);
    if full < 0 || empty < 0 then None
    else
      Some(seq(full, _ => Full) + (if HasHalfStar(rating) then [HalfStar] else []) + seq(empty, _ => Empty))
  }

  /** The split of a rating: whole stars, at most one half star, and empty
      stars filling up to five; a rating within [0, 5] always draws. */
  lemma StarSplit(rating: real)
    ensures FullStars(rating) as real <= rating < FullStars(rating) as real + 1.0
    ensures HasHalfStar(rating) <==> FullStars(rating) as real < rating
    ensures FullStars(rating) + (if HasHalfStar(rating) then 1 else 0) + EmptyStars(rating) == 5
    ensures 0.0 <= rating <= 5.0 ==> FullStars(rating) >= 0 && EmptyStars(rating) >= 0 && StarRow(rating).Some?
  {
  }

  /** A rating above five cannot be drawn. */
  lemma OverFiveDoesNotDraw()
    ensures StarRow(5.5).None?
  {
    assert (5.5).Floor == 5;
  }

  /** `garmentSpecialties.slice(0, 3)` */
  function ShownSpecialties(specialties: seq<string>): (shown: seq<string>)
    ensures |shown| == if |specialties| < 3 then |specialties| else 3
    ensures shown == specialties[..|shown|]
  {
    if |specialties| <= 3 then specialties else specialties[..3]
  }

  /** The avatar's placeholder image. */
  function AvatarImage(t: Tailor): string
  {
    PicsumAvatar(t.tailorId)
  }

  /** Two cards show the same placeholder image iff their tailors share an id. */
  lemma AvatarImagePerTailor(t1: Tailor, t2: Tailor)
    ensures AvatarImage(t1) == AvatarImage(t2) <==> t1.tailorId == t2.tailorId
  {
    PicsumAvatarInjective(t1.tailorId, t2.tailorId);
  }

  /** The avatar's fallback: `name.charAt(0)`, empty for an empty name. */
  function AvatarInitial(name: string): (initial: string)
    ensures |initial| == if name == "" then 0 else 1
    ensures name != "" ==> initial == [name[0]]
  {
    if name == "" then "" else name[..1]
  }
}

/**
 * The two records of the application, a food stall and a review, and the
 * shapes callers hand to the store before an identifier is assigned
 * (`Omit<FoodStall, 'id'>`, `Omit<Review, 'id'>`).
 */
module Types {
  import opened Wrappers

  /** A point in time, as milliseconds since the epoch (`Date`, `Date.now()`). */
  type Time = nat

  /** A food stall as stored. `rating` is absent until a review sets it. */
  datatype FoodStall = FoodStall(
    id: string,
    name: string,
    location: string,
    description: string,
    mustTryDish: string,
    approximatePrice: real,
    imageUrl: string,
    rating: Option<real>,
    createdAt: Time,
    updatedAt: Time)

  /** A stall before the store gives it an identifier. */
  datatype StallData = StallData(
    name: string,
    location: string,
    description: string,
    mustTryDish: string,
    approximatePrice: real,
    imageUrl: string,
    rating: Option<real>,
    createdAt: Time,
    updatedAt: Time)

  /** A review as stored. The type leaves `id` optional; the store always sets it. */
  datatype Review = Review(
    id: Option<string>,
    stallId: string,
    userId: string,
    userName: string,
    rating: int,
    comment: string,
    imageUrl: Option<string>,
    createdAt: Time,
    updatedAt: Time)

  /** A review before the store gives it an identifier and its timestamps. */
  datatype ReviewData = ReviewData(
    stallId: string,
    userId: string,
    userName: string,
    rating: int,
    comment: string,
    imageUrl: Option<string>,
    createdAt: Time,
    updatedAt: Time)

  /** A file picked in an image input; reading it is outside the model. */
  datatype ImageFile = ImageFile(fileName: string)

  /** `{ ...stall, id }`: the caller's fields with the identifier added. */
  function StallWithId(d: StallData, id: string): (s: FoodStall)
    ensures s.id == id && StallDataOf(s) == d
  {
    FoodStall(id, d.name, d.location, d.description, d.mustTryDish,
              d.approximatePrice, d.imageUrl, d.rating, d.createdAt, d.updatedAt)
  }

  /** The fields of a stall other than its identifier. */
  function StallDataOf(s: FoodStall): StallData {
    StallData(s.name, s.location, s.description, s.mustTryDish,
              s.approximatePrice, s.imageUrl, s.rating, s.createdAt, s.updatedAt)
  }

  /**
   * `{ ...review, id, createdAt: now, updatedAt: now }`: the caller's fields
   * with an identifier, and both timestamps replaced by the current time.
   */
  function ReviewWithId(d: ReviewData, id: string, now: Time): (r: Review)
    ensures r.id == Some(id) && r.createdAt == now && r.updatedAt == now
    ensures ReviewDataOf(r).(createdAt := d.createdAt, updatedAt := d.updatedAt) == d
  {
    Review(Some(id), d.stallId, d.userId, d.userName, d.rating, d.comment,
           d.imageUrl, now, now)
  }

  /** The fields of a review other than its identifier. */
  function ReviewDataOf(r: Review): ReviewData {
    ReviewData(r.stallId, r.userId, r.userName, r.rating, r.comment,
               r.imageUrl, r.createdAt, r.updatedAt)
  }
}

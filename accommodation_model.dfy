/** The mongoose `Accommodation` schema: required `name`, `description`,
    `address`, numeric `price` and `owner` reference; optional `amenities`. */
module Accommodations {
  import opened Base
  import opened Text

  /** A value handed to a typed schema path: missing, castable to the path's
      type, or not castable (a cast error at validation). */
  datatype Field<T> = Absent | Given(value: T) | Uncastable

  datatype Accommodation = Accommodation(
    id: Id,
    name: string,
    description: string,
    address: string,
    price: int,
    amenities: seq<string>,
    owner: Id)

  /** The schema fields a request body may set. Unknown fields are dropped.
      A body `_id` is kept by the document constructor but is not modelled. */
  datatype AccommodationBody = AccommodationBody(
    name: Option<string>,
    description: Option<string>,
    address: Option<string>,
    price: Field<int>,
    amenities: Option<seq<string>>,
    owner: Field<Id>)

  /** `new Accommodation(body)` followed by validation. `None` is a
      validation or cast error. */
  function CreateAccommodation(id: Id, b: AccommodationBody): (r: Option<Accommodation>)
    ensures r.Some? <==>
      Truthy(b.name) && Truthy(b.description) && Truthy(b.address) && b.price.Given? && b.owner.Given?
    ensures r.Some? ==>
      && r.value.id == id
      && Some(r.value.name) == b.name
      && Some(r.value.description) == b.description
      && Some(r.value.address) == b.address
      && r.value.price == b.price.value
      && r.value.owner == b.owner.value
      && r.value.amenities == (if b.amenities.Some? then b.amenities.value else [])
  {
    if Truthy(b.name) && Truthy(b.description) && Truthy(b.address) && b.price.Given? && b.owner.Given? then
      Some(Accommodation(id, b.name.value, b.description.value, b.address.value, b.price.value,
                         match b.amenities case None => [] case Some(a) => a,
                         b.owner.value))
    else None
  }
}

/**
 * The product record served by the remote catalog. Prices are integer cents
 * and the average rating is an integer (tenths of a star), so that every
 * comparison and sum is exact.
 */
module Catalog {

  datatype Rating = Rating(rate: int, count: int)

  datatype Product = Product(
    id: int,
    title: string,
    price: int,
    description: string,
    category: string,
    image: string,
    rating: Rating)

}

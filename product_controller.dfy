/**
 * Product handlers: the paginated listing, the not-found guards of the
 * single-product handlers, and the review aggregate (upsert, list, delete)
 * with its recomputed `ratings` and `numberOfReviews`.
 */
module ProductController {
  import opened Wrappers
  import opened Models
  import Lists
  import Paging
  import Store

  /* ---------------- review aggregate ---------------- */

  /** The sum of the ratings, added from the first review to the last. */
  function RatingSum(reviews: seq<Review>): real {
    if |reviews| == 0 then 0.0
    else RatingSum(reviews[..|reviews| - 1]) + reviews[|reviews| - 1].rating
  }

  /** `count > 0 ? sum / count : 0`. */
  function Average(sum: real, count: nat): real {
    if count > 0 then sum / (count as real) else 0.0
  }

  /** The average rating of a review list, 0 when it is empty. */
  function MeanRating(reviews: seq<Review>): real {
    Average(RatingSum(reviews), |reviews|)
  }

  function ReviewUser(rv: Review): Id { rv.user }

  /** The two derived fields agree with the embedded review list. */
  predicate AggregatesConsistent(p: Product) {
    p.numberOfReviews == |p.reviews| && p.ratings == MeanRating(p.reviews)
  }

  /** The product with `reviews` as its list and both derived fields recomputed. */
  function WithReviews(p: Product, reviews: seq<Review>): (q: Product)
    ensures AggregatesConsistent(q) && q.reviews == reviews
    ensures q.(reviews := p.reviews, ratings := p.ratings, numberOfReviews := p.numberOfReviews) == p
  {
    p.(reviews := reviews, numberOfReviews := |reviews|, ratings := MeanRating(reviews))
  }

  /** Recomputing a consistent product's aggregates from its own list changes nothing. */
  lemma WithOwnReviews(p: Product)
    requires AggregatesConsistent(p)
    ensures WithReviews(p, p.reviews) == p
  {
  }

  lemma {:induction false} RatingSumAppend(a: seq<Review>, b: seq<Review>)
    ensures RatingSum(a + b) == RatingSum(a) + RatingSum(b)
  {
    if |b| == 0 {
      assert a + b == a;
    } else {
      var n := |b| - 1;
      assert (a + b)[..|a + b| - 1] == a + b[..n];
      RatingSumAppend(a, b[..n]);
    }
  }

  /** The average after appending one review. */
  lemma MeanAfterAppend(reviews: seq<Review>, r: Review)
    ensures MeanRating(reviews + [r]) == Average(RatingSum(reviews) + r.rating, |reviews| + 1)
  {
    assert (reviews + [r])[..|reviews|] == reviews;
    assert RatingSum(reviews + [r]) == RatingSum(reviews) + r.rating;
  }

  lemma {:induction false} RatingSumBounds(reviews: seq<Review>, lo: real, hi: real)
    requires forall i :: 0 <= i < |reviews| ==> lo <= reviews[i].rating <= hi
    ensures (|reviews| as real) * lo <= RatingSum(reviews) <= (|reviews| as real) * hi
  {
    if |reviews| > 0 {
      RatingSumBounds(reviews[..|reviews| - 1], lo, hi);
    }
  }

  /** When every rating lies in `[lo, hi]`, so does their average. */
  lemma MeanBounds(reviews: seq<Review>, lo: real, hi: real)
    requires |reviews| > 0
    requires forall i :: 0 <= i < |reviews| ==> lo <= reviews[i].rating <= hi
    ensures lo <= MeanRating(reviews) <= hi
  {
    RatingSumBounds(reviews, lo, hi);
    var n := |reviews| as real;
    assert RatingSum(reviews) / n >= (n * lo) / n;
    assert RatingSum(reviews) / n <= (n * hi) / n;
  }

  /** The `forEach` accumulation of the ratings. */
  method SumRatings(reviews: seq<Review>) returns (sum: real)
    ensures sum == RatingSum(reviews)
  {
    sum := 0.0;
    var i := 0;
    while i < |reviews|
      invariant 0 <= i <= |reviews|
      invariant sum == RatingSum(reviews[..i])
    {
      assert reviews[..i + 1][..i] == reviews[..i];
      sum := sum + reviews[i].rating;
      i := i + 1;
    }
    assert reviews[..i] == reviews;
  }

  /** Some review in the list belongs to `user`. */
  predicate HasReviewBy(reviews: seq<Review>, user: Id) {
    exists i :: 0 <= i < |reviews| && reviews[i].user == user
  }

  /** Every review of `user` gets the new rating and comment; nothing else changes. */
  function UpdateByUser(reviews: seq<Review>, user: Id, rating: real, comment: string): (r: seq<Review>)
    ensures |r| == |reviews|
    ensures forall i :: 0 <= i < |reviews| ==>
      r[i] == (if reviews[i].user == user then reviews[i].(rating := rating, comment := comment) else reviews[i])
  {
    if |reviews| == 0 then []
    else
      var head := if reviews[0].user == user then reviews[0].(rating := rating, comment := comment) else reviews[0];
      [head] + UpdateByUser(reviews[1..], user, rating, comment)
  }

  /**
   * The review list after `user` submits a review: an existing review by the
   * same user is edited where it stands, otherwise the new one goes last.
   */
  function Upsert(reviews: seq<Review>, user: Id, name: string, rating: real, comment: string, newId: Id): (r: seq<Review>)
    ensures !HasReviewBy(reviews, user) ==>
      |r| == |reviews| + 1 && r[..|reviews|] == reviews && r[|reviews|] == Review(newId, user, name, rating, comment)
    ensures HasReviewBy(reviews, user) ==>
      |r| == |reviews| &&
      forall i :: 0 <= i < |reviews| ==>
        r[i].id == reviews[i].id && r[i].user == reviews[i].user && r[i].name == reviews[i].name &&
        (reviews[i].user == user ==> r[i].rating == rating && r[i].comment == comment) &&
        (reviews[i].user != user ==> r[i] == reviews[i])
    ensures HasReviewBy(r, user)
  {
    if HasReviewBy(reviews, user) then
      var r := UpdateByUser(reviews, user, rating, comment);
      var i :| 0 <= i < |reviews| && reviews[i].user == user;
      assert r[i].user == user;
      r
    else
      var r := reviews + [Review(newId, user, name, rating, comment)];
      assert r[|reviews|].user == user;
      r
  }

  /** Upsert keeps "at most one review per user" and leaves the user with exactly one. */
  lemma UpsertOnePerUser(reviews: seq<Review>, user: Id, name: string, rating: real, comment: string, newId: Id)
    requires Lists.UniqueKeys(reviews, ReviewUser)
    ensures Lists.UniqueKeys(Upsert(reviews, user, name, rating, comment, newId), ReviewUser)
  {
    var r := Upsert(reviews, user, name, rating, comment, newId);
    if HasReviewBy(reviews, user) {
      assert forall i :: 0 <= i < |r| ==> r[i].user == reviews[i].user;
    } else {
      forall i, j | 0 <= i < j < |r| ensures r[i].user != r[j].user {
        if j == |reviews| {
          assert r[i] == reviews[i];
        } else {
          assert r[i] == reviews[i] && r[j] == reviews[j];
        }
      }
    }
  }

  /** The `forEach` that edits, in place, every review of `user`. */
  method EditUserReviews(reviews: seq<Review>, user: Id, rating: real, comment: string) returns (r: seq<Review>)
    ensures r == UpdateByUser(reviews, user, rating, comment)
  {
    r := reviews;
    var i := 0;
    while i < |r|
      invariant 0 <= i <= |r| == |reviews|
      invariant forall k :: 0 <= k < i ==>
        r[k] == (if reviews[k].user == user then reviews[k].(rating := rating, comment := comment) else reviews[k])
      invariant forall k :: i <= k < |r| ==> r[k] == reviews[k]
    {
      if r[i].user == user {
        r := r[i := r[i].(rating := rating, comment := comment)];
      }
      i := i + 1;
    }
  }

  /**
   * The first half of `createReviewForProduct`: look for the requester's
   * review, then edit it in place or push a new one.
   */
  method UpsertReviewList(reviews: seq<Review>, user: Id, userName: string,
                          rating: real, comment: string, newReviewId: Id)
    returns (r: seq<Review>)
    ensures r == Upsert(reviews, user, userName, rating, comment, newReviewId)
  {
    var existing := Lists.FindIndex(reviews, ReviewUser, user);
    if existing != -1 {
      assert HasReviewBy(reviews, user) by {
        assert reviews[existing].user == user;
      }
      r := EditUserReviews(reviews, user, rating, comment);
    } else {
      assert !HasReviewBy(reviews, user) by {
        assert forall i :: 0 <= i < |reviews| ==> ReviewUser(reviews[i]) != user;
      }
      r := reviews + [Review(newReviewId, user, userName, rating, comment)];
    }
  }

  /**
   * `createReviewForProduct`: upsert the requester's review, recompute both
   * derived fields and save. A missing product is reported with status 400.
   */
  method CreateReviewForProduct(db: Store.Database, productId: Id, user: Id, userName: string,
                                rating: real, comment: string, newReviewId: Id)
    returns (r: Result<Product>)
    modifies db
    ensures db.orders == old(db.orders)
    ensures productId !in old(db.products) ==>
      r == Err(400, "Product not found") && db.products == old(db.products)
    ensures productId in old(db.products) ==>
      var p := old(db.products)[productId];
      r == Ok(WithReviews(p, Upsert(p.reviews, user, userName, rating, comment, newReviewId))) &&
      db.products == old(db.products)[productId := r.value]
  {
    if productId !in db.products {
      return Err(400, "Product not found");
    }
    var product := db.products[productId];
    var reviews := UpsertReviewList(product.reviews, user, userName, rating, comment, newReviewId);
    var sum := SumRatings(reviews);
    product := product.(reviews := reviews, numberOfReviews := |reviews|, ratings := Average(sum, |reviews|));
    db.products := db.products[productId := product];
    r := Ok(product);
  }

  /** `getProductReviews`: the embedded list verbatim, or 400 for a missing product. */
  function GetProductReviews(products: map<Id, Product>, productId: Id): (r: Result<seq<Review>>)
    ensures productId !in products <==> r == Err(400, "Product not found")
    ensures productId in products ==> r == Ok(products[productId].reviews)
  {
    if productId !in products then Err(400, "Product not found") else Ok(products[productId].reviews)
  }

  /** What Node reports when the filter calls `toString` on a missing `req.query.id`. */
  const MissingIdMessage: string := "Cannot read properties of undefined (reading 'toString')"

  /**
   * `deleteReview`: keep the reviews whose id differs, recompute both derived
   * fields, and store list and fields in one update. `None` is a query
   * without an `id`: the filter callback then throws on the first review,
   * so the handler fails with 500 unless the product has no reviews at all.
   */
  method DeleteReview(db: Store.Database, productId: Id, reviewId: Option<Id>) returns (r: Result<string>)
    modifies db
    ensures db.orders == old(db.orders)
    ensures productId !in old(db.products) ==>
      r == Err(400, "Product not found") && db.products == old(db.products)
    ensures productId in old(db.products) && reviewId.None? && |old(db.products)[productId].reviews| > 0 ==>
      r == Err(500, MissingIdMessage) && db.products == old(db.products)
    ensures productId in old(db.products) && reviewId.None? && |old(db.products)[productId].reviews| == 0 ==>
      var p := old(db.products)[productId];
      r == Ok("Review deleted successfully") && db.products == old(db.products)[productId := WithReviews(p, [])]
    ensures productId in old(db.products) && reviewId.Some? ==>
      var p := old(db.products)[productId];
      r == Ok("Review deleted successfully") &&
      db.products == old(db.products)[productId := WithReviews(p, Lists.Without(p.reviews, ReviewId, reviewId.value))]
  {
    if productId !in db.products {
      return Err(400, "Product not found");
    }
    var product := db.products[productId];
    var reviews: seq<Review>;
    if reviewId.None? {
      if |product.reviews| > 0 {
        return Err(500, MissingIdMessage);
      }
      reviews := [];
    } else {
      reviews := Lists.Without(product.reviews, ReviewId, reviewId.value);
    }
    var sum := SumRatings(reviews);
    var ratings := Average(sum, |reviews|);
    var numberOfReviews := |reviews|;
    db.products := db.products[productId := product.(reviews := reviews, ratings := ratings, numberOfReviews := numberOfReviews)];
    r := Ok("Review deleted successfully");
  }

  /**
   * Deleting an id that no review has leaves a consistent product exactly as
   * it was; deleting any id keeps the other reviews in their order and the
   * aggregates consistent.
   */
  lemma DeleteUnknownReviewIsNoop(p: Product, reviewId: Id)
    requires AggregatesConsistent(p)
    requires forall i :: 0 <= i < |p.reviews| ==> p.reviews[i].id != reviewId
    ensures WithReviews(p, Lists.Without(p.reviews, ReviewId, reviewId)) == p
  {
    Lists.WithoutAbsent(p.reviews, ReviewId, reviewId);
  }

  /* The worked example of the review aggregate, one submission at a time. */

  lemma FirstReviewOfFour()
    ensures Upsert([], "A", "Ann", 4.0, "good", "r1") == [Review("r1", "A", "Ann", 4.0, "good")]
    ensures MeanRating([Review("r1", "A", "Ann", 4.0, "good")]) == 4.0
  {
    var s1 := [Review("r1", "A", "Ann", 4.0, "good")];
    assert !HasReviewBy([], "A");
    assert RatingSum(s1) == 4.0 by { assert s1[..0] == []; }
  }

  lemma ResubmissionOfTwo()
    ensures Upsert([Review("r1", "A", "Ann", 4.0, "good")], "A", "Ann", 2.0, "meh", "r2")
      == [Review("r1", "A", "Ann", 2.0, "meh")]
    ensures MeanRating([Review("r1", "A", "Ann", 2.0, "meh")]) == 2.0
  {
    var s1 := [Review("r1", "A", "Ann", 4.0, "good")];
    var s2 := [Review("r1", "A", "Ann", 2.0, "meh")];
    assert HasReviewBy(s1, "A") by { assert s1[0].user == "A"; }
    var u := Upsert(s1, "A", "Ann", 2.0, "meh", "r2");
    assert u[0] == s2[0];
    assert RatingSum(s2) == 2.0 by { assert s2[..0] == []; }
  }

  lemma SecondUserOfFive()
    ensures Upsert([Review("r1", "A", "Ann", 2.0, "meh")], "B", "Bob", 5.0, "great", "r3")
      == [Review("r1", "A", "Ann", 2.0, "meh"), Review("r3", "B", "Bob", 5.0, "great")]
    ensures MeanRating([Review("r1", "A", "Ann", 2.0, "meh"), Review("r3", "B", "Bob", 5.0, "great")]) == 3.5
  {
    var s2 := [Review("r1", "A", "Ann", 2.0, "meh")];
    var r3 := Review("r3", "B", "Bob", 5.0, "great");
    assert !HasReviewBy(s2, "B");
    assert s2 + [r3] == [s2[0], r3];
    assert RatingSum(s2) == 2.0 by { assert s2[..0] == []; }
    MeanAfterAppend(s2, r3);
    assert Average(7.0, 2) == 3.5;
  }

  /**
   * The worked example of the review aggregate: a first review of 4, the same
   * user's resubmission of 2, and a second user's 5.
   */
  lemma ReviewScenario(p: Product)
    requires p.reviews == []
    ensures var p1 := WithReviews(p, Upsert(p.reviews, "A", "Ann", 4.0, "good", "r1"));
      p1.ratings == 4.0 && p1.numberOfReviews == 1 &&
      var p2 := WithReviews(p1, Upsert(p1.reviews, "A", "Ann", 2.0, "meh", "r2"));
      p2.ratings == 2.0 && p2.numberOfReviews == 1 &&
      var p3 := WithReviews(p2, Upsert(p2.reviews, "B", "Bob", 5.0, "great", "r3"));
      p3.ratings == 3.5 && p3.numberOfReviews == 2
  {
    FirstReviewOfFour();
    ResubmissionOfTwo();
    SecondUserOfFive();
  }

  /* ---------------- single-product guards ---------------- */

  /**
   * The request body of an update: any stored field but the id. A field the
   * body does not carry is `None` and keeps its stored value.
   */
  datatype ProductPatch = ProductPatch(
    name: Option<string>,
    description: Option<string>,
    price: Option<real>,
    category: Option<string>,
    stock: Option<int>,
    images: Option<seq<Image>>,
    reviews: Option<seq<Review>>,
    ratings: Option<real>,
    numberOfReviews: Option<int>,
    user: Option<Id>)

  /** `findByIdAndUpdate(id, req.body)`: every field the body carries is written, the others are kept. */
  function ApplyPatch(p: Product, patch: ProductPatch): (q: Product)
    ensures q.id == p.id
    ensures q.name == patch.name.GetOr(p.name) && q.description == patch.description.GetOr(p.description)
    ensures q.price == patch.price.GetOr(p.price) && q.category == patch.category.GetOr(p.category)
    ensures q.stock == patch.stock.GetOr(p.stock) && q.images == patch.images.GetOr(p.images)
    ensures q.reviews == patch.reviews.GetOr(p.reviews) && q.ratings == patch.ratings.GetOr(p.ratings)
    ensures q.numberOfReviews == patch.numberOfReviews.GetOr(p.numberOfReviews)
    ensures q.user == patch.user.GetOr(p.user)
  {
    Product(p.id,
            patch.name.GetOr(p.name),
            patch.description.GetOr(p.description),
            patch.price.GetOr(p.price),
            patch.category.GetOr(p.category),
            patch.stock.GetOr(p.stock),
            patch.images.GetOr(p.images),
            patch.reviews.GetOr(p.reviews),
            patch.ratings.GetOr(p.ratings),
            patch.numberOfReviews.GetOr(p.numberOfReviews),
            patch.user.GetOr(p.user))
  }

  /** A patch that leaves the reviews and both derived fields alone keeps them consistent. */
  lemma PatchKeepsAggregates(p: Product, patch: ProductPatch)
    requires AggregatesConsistent(p)
    requires patch.reviews.None? && patch.ratings.None? && patch.numberOfReviews.None?
    ensures AggregatesConsistent(ApplyPatch(p, patch))
    ensures ApplyPatch(p, patch).reviews == p.reviews
  {
  }

  /**
   * The update writes the derived fields as given: a body with a rating of
   * 5 for a product without reviews leaves its average out of step with its
   * (empty) review list.
   */
  lemma PatchCanDesyncAggregates(p: Product)
    requires p.reviews == [] && AggregatesConsistent(p)
    ensures var q := ApplyPatch(p, ProductPatch(None, None, None, None, None, None, None, Some(5.0), None, None));
      q.reviews == [] && q.ratings == 5.0 && !AggregatesConsistent(q)
  {
  }

  /** `updateProduct`: 404 for an unknown id; otherwise the patched product is stored and returned. */
  method UpdateProduct(db: Store.Database, id: Id, patch: ProductPatch) returns (r: Result<Product>)
    modifies db
    ensures db.orders == old(db.orders)
    ensures id !in old(db.products) ==> r == Err(404, "Product not found") && db.products == old(db.products)
    ensures id in old(db.products) ==>
      r == Ok(ApplyPatch(old(db.products)[id], patch)) && db.products == old(db.products)[id := r.value]
  {
    if id !in db.products {
      return Err(404, "Product not found");
    }
    var product := ApplyPatch(db.products[id], patch);
    db.products := db.products[id := product];
    r := Ok(product);
  }

  /** `deleteProduct`: 404 for an unknown id; otherwise only that product is removed. */
  method DeleteProduct(db: Store.Database, id: Id) returns (r: Result<string>)
    modifies db
    ensures db.orders == old(db.orders)
    ensures id !in old(db.products) ==> r == Err(404, "Product not found") && db.products == old(db.products)
    ensures id in old(db.products) ==>
      r == Ok("Product deleted successfully") && db.products == old(db.products) - {id}
  {
    if id !in db.products {
      return Err(404, "Product not found");
    }
    db.products := db.products - {id};
    r := Ok("Product deleted successfully");
  }

  /** `getSingleProduct`. */
  function GetSingleProduct(products: map<Id, Product>, id: Id): (r: Result<Product>)
    ensures id !in products <==> r == Err(404, "Product not found")
    ensures id in products ==> r == Ok(products[id])
  {
    if id !in products then Err(404, "Product not found") else Ok(products[id])
  }

  /* ---------------- listing ---------------- */

  const ResultPerPage: nat := 4

  /** The body of a successful listing. */
  datatype Listing = Listing(products: seq<Product>, productCount: nat, resultPerPage: nat, totalPages: nat, currentPage: int)

  /**
   * `Number(req.query.page) || 1`. `None` stands for a missing or
   * non-numeric parameter (`NaN`).
   */
  function PageNumber(page: Option<int>): (n: int)
    ensures n != 0
    ensures page.None? || page == Some(0) ==> n == 1
    ensures page.Some? && page.value != 0 ==> n == page.value
  {
    if page.Some? && page.value != 0 then page.value else 1
  }

  /**
   * `getAllProducts` over the products that match the search and filters, in
   * store order. The count is taken before paging.
   */
  function GetAllProducts(matching: seq<Product>, page: Option<int>): (r: Result<Listing>)
    ensures var n := PageNumber(page); var t := Paging.CeilDiv(|matching|, ResultPerPage);
      && (r == Err(404, "Page not found") <==> |matching| > 0 && n > t)
      && (|matching| == 0 ==> r == Err(404, "No products found"))
      && (r.Ok? <==> |matching| > 0 && n <= t)
      && (r.Ok? ==>
            r.value.productCount == |matching| && r.value.resultPerPage == ResultPerPage &&
            r.value.totalPages == t && r.value.currentPage == n &&
            1 <= |r.value.products| <= ResultPerPage &&
            (n >= 1 ==> r.value.products == matching[(n - 1) * ResultPerPage..Paging.Min(n * ResultPerPage, |matching|)]) &&
            (n < 1 ==> r.value.products == matching[..Paging.Min(ResultPerPage, |matching|)]))
  {
    var productCount := |matching|;
    var totalPages := Paging.CeilDiv(productCount, ResultPerPage);
    var n := PageNumber(page);
    if n > totalPages && productCount > 0 then Err(404, "Page not found")
    else
      var products := Paging.Page(matching, n, ResultPerPage);
      if |products| == 0 then Err(404, "No products found")
      else if n >= 1 then
        Paging.PageInRange(matching, n, ResultPerPage);
        Ok(Listing(products, productCount, ResultPerPage, totalPages, n))
      else Ok(Listing(products, productCount, ResultPerPage, totalPages, n))
  }
}

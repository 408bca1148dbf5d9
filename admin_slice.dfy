/** The administrator's store: the user and product tables and the request flags. */
module AdminSlice {
  import opened Wrappers
  import opened Models
  import Lists

  function UserId(u: User): Id { u.id }
  function ProductId(p: Product): Id { p.id }

  class AdminState {
    var users: seq<User>
    var products: seq<Product>
    var loading: bool
    var error: Option<string>
    var success: bool
    var message: Option<string>

    constructor ()
      ensures users == [] && products == [] && !loading && error == None && !success && message == None
    {
      users := [];
      products := [];
      loading := false;
      error := None;
      success := false;
      message := None;
    }

    /** The shared `pending` case. */
    method Pending()
      modifies this
      ensures loading && error == None
      ensures users == old(users) && products == old(products) && success == old(success) && message == old(message)
    {
      loading := true;
      error := None;
    }

    /** The shared `rejected` case: the tables are untouched. */
    method Rejected(payload: string)
      modifies this
      ensures !loading && error == Some(payload)
      ensures users == old(users) && products == old(products) && success == old(success) && message == old(message)
    {
      loading := false;
      error := Some(payload);
    }

    /** `getAllUsers.fulfilled`: the table is replaced by the answer. */
    method GetAllUsersFulfilled(answer: seq<User>)
      modifies this
      ensures !loading && users == answer
      ensures products == old(products) && error == old(error) && success == old(success) && message == old(message)
    {
      loading := false;
      users := answer;
    }

    /** `updateUserRole.fulfilled`: the row with the answered user's id is replaced, if there is one. */
    method UpdateUserRoleFulfilled(u: User)
      modifies this
      ensures !loading && success && message == Some("User role updated!")
      ensures users == Lists.ReplaceFirst(old(users), UserId, u)
      ensures products == old(products) && error == old(error)
    {
      loading := false;
      success := true;
      message := Some("User role updated!");
      var idx := Lists.FindIndex(users, UserId, u.id);
      if idx != -1 {
        users := users[idx := u];
      }
    }

    /** `deleteUser.fulfilled`: the rows with that id are dropped, the rest keep their order. */
    method DeleteUserFulfilled(id: Id)
      modifies this
      ensures !loading && success && message == Some("User deleted!")
      ensures users == Lists.Without(old(users), UserId, id)
      ensures products == old(products) && error == old(error)
    {
      loading := false;
      success := true;
      message := Some("User deleted!");
      users := Lists.Without(users, UserId, id);
    }

    /** `getAdminProducts.fulfilled`. */
    method GetAdminProductsFulfilled(answer: seq<Product>)
      modifies this
      ensures !loading && products == answer
      ensures users == old(users) && error == old(error) && success == old(success) && message == old(message)
    {
      loading := false;
      products := answer;
    }

    /** `createProduct.fulfilled`: the new product goes last. */
    method CreateProductFulfilled(p: Product)
      modifies this
      ensures !loading && success && message == Some("Product created!")
      ensures products == old(products) + [p]
      ensures users == old(users) && error == old(error)
    {
      loading := false;
      success := true;
      message := Some("Product created!");
      products := products + [p];
    }

    /** `updateProduct.fulfilled`. */
    method UpdateProductFulfilled(p: Product)
      modifies this
      ensures !loading && success && message == Some("Product updated!")
      ensures products == Lists.ReplaceFirst(old(products), ProductId, p)
      ensures users == old(users) && error == old(error)
    {
      loading := false;
      success := true;
      message := Some("Product updated!");
      var idx := Lists.FindIndex(products, ProductId, p.id);
      if idx != -1 {
        products := products[idx := p];
      }
    }

    /** `deleteProduct.fulfilled`. */
    method DeleteProductFulfilled(id: Id)
      modifies this
      ensures !loading && success && message == Some("Product deleted!")
      ensures products == Lists.Without(old(products), ProductId, id)
      ensures users == old(users) && error == old(error)
    {
      loading := false;
      success := true;
      message := Some("Product deleted!");
      products := Lists.Without(products, ProductId, id);
    }

    /** `removeErrors`. */
    method RemoveErrors()
      modifies this
      ensures error == None
      ensures users == old(users) && products == old(products) && loading == old(loading)
      ensures success == old(success) && message == old(message)
    {
      error := None;
    }

    /** `removeSuccess`. */
    method RemoveSuccess()
      modifies this
      ensures !success && message == None
      ensures users == old(users) && products == old(products) && loading == old(loading) && error == old(error)
    {
      success := false;
      message := None;
    }
  }
}

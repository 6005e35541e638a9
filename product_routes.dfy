/** The product route table (server/routes/product.js): which endpoints are public, which
    need a signed-in user, which need the artisan role, and the upload limit on creation. */
module ProductRoutes {
  import opened Common

  datatype Endpoint = ListProducts | ShowProduct | ListArtisanProducts
                    | CreateProduct | UpdateProduct | DeleteProduct

  /** The middleware in front of a handler: none, `protect`, or `protect` then `authorize(role)`. */
  datatype Guard = Public | SignedIn | SignedInAs(role: Role)

  function GuardOf(e: Endpoint): Guard {
    match e
    case ListProducts => Public
    case ShowProduct => Public
    case ListArtisanProducts => Public
    case CreateProduct => SignedInAs(Artisan)
    case UpdateProduct => SignedInAs(Artisan)
    case DeleteProduct => SignedIn
  }

  /** `upload.array('images', 5)`. */
  const MaxImages := 5

  /** What the middleware chain answers before the handler runs: Ok lets the call through.
      `protect` turns away a call without a user, `authorize` a user of another role. */
  function Admit(g: Guard, caller: Option<Caller>): (r: Outcome<()>)
    ensures r.Ok? || r.Unauthenticated? || r.Forbidden?
    ensures r.Unauthenticated? <==> g != Public && caller.None?
    ensures r.Forbidden? <==> g.SignedInAs? && caller.Some? && caller.value.role != g.role
  {
    match g
    case Public => Ok(())
    case SignedIn => if caller.None? then Unauthenticated else Ok(())
    case SignedInAs(role) =>
      if caller.None? then Unauthenticated
      else if caller.value.role != role then Forbidden
      else Ok(())
  }

  /** The whole chain of an endpoint, including the upload limit on creation (more files than
      the limit make the upload middleware fail the call). */
  function AdmitCall(e: Endpoint, caller: Option<Caller>, files: nat): (r: Outcome<()>)
    ensures Admit(GuardOf(e), caller).Ok? && e == CreateProduct && files > MaxImages ==> r == Invalid
    ensures !Admit(GuardOf(e), caller).Ok? ==> r == Admit(GuardOf(e), caller)
  {
    var a := Admit(GuardOf(e), caller);
    if !a.Ok? then a
    else if e == CreateProduct && files > MaxImages then Invalid
    else Ok(())
  }

  /** Who gets through to each handler: anyone to the three listings, only an artisan to create
      (with at most five files) and update, any signed-in user to delete. */
  lemma ProductAccess(e: Endpoint, caller: Option<Caller>, files: nat)
    ensures e in {ListProducts, ShowProduct, ListArtisanProducts} ==> AdmitCall(e, caller, files).Ok?
    ensures e == CreateProduct ==>
      (AdmitCall(e, caller, files).Ok? <==> caller.Some? && caller.value.role == Artisan && files <= MaxImages)
    ensures e == UpdateProduct ==>
      (AdmitCall(e, caller, files).Ok? <==> caller.Some? && caller.value.role == Artisan)
    ensures e == DeleteProduct ==> (AdmitCall(e, caller, files).Ok? <==> caller.Some?)
  {
  }

  /** An admin is turned away from updating any product, but reaches the delete handler. */
  lemma AdminMayDeleteNotUpdate(id: Id)
    ensures AdmitCall(UpdateProduct, Some(Caller(id, Admin)), 0) == Forbidden
    ensures AdmitCall(DeleteProduct, Some(Caller(id, Admin)), 0) == Ok(())
  {
  }
}

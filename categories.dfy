/** The category callers (`@/services/categories`). */
module Categories {
  import opened Common

  const CategoriesPath := "/categories"
  const AdminCategoriesPath := "/admin/categories"

  function CategoryPath(id: string): (r: string) {
    "/categories/" + id
  }

  /** `listCategories`: an array response is kept as it is; any other
      response, and any rejection, becomes `[]`, so the caller always gets an
      array and never a rejection. */
  function ListCategories(server: Server): (r: Json)
    ensures r.Arr?
    ensures var reply := server(Request(Get, CategoriesPath, None, None));
      && (reply.Resolved? && reply.value.Arr? ==> r == reply.value)
      && (!(reply.Resolved? && reply.value.Arr?) ==> r == Arr([]))
  {
    var reply := server(Request(Get, CategoriesPath, None, None));
    if reply.Rejected? then Arr([])
    else if reply.value.Arr? then reply.value
    else Arr([])
  }

  /** The fallback is idempotent: its own output passes through it unchanged. */
  lemma ListCategoriesIdempotent(server: Server)
    ensures var once := ListCategories(server);
      ListCategories(_ => Resolved(once)) == once
  {
  }

  /** A server that answers with something other than an array, or fails,
      leaves the caller with no categories rather than an error. */
  lemma ListCategoriesNeverRejects(server: Server)
    ensures server(Request(Get, CategoriesPath, None, None)).Rejected? ==> ListCategories(server) == Arr([])
    ensures ListCategories(server) != Arr([]) ==>
      server(Request(Get, CategoriesPath, None, None)) == Resolved(ListCategories(server))
  {
  }

  function ListAdminCategories(server: Server): (r: Outcome<Json>) {
    server(Request(Get, AdminCategoriesPath, None, None))
  }

  function CreateCategory(body: Json, server: Server): (r: Outcome<Json>) {
    server(Request(Post, CategoriesPath, None, Some(body)))
  }

  function UpdateCategory(id: string, body: Json, server: Server): (r: Outcome<Json>) {
    server(Request(Put, CategoryPath(id), None, Some(body)))
  }

  function DeleteCategory(id: string, server: Server): (r: Outcome<Json>) {
    server(Request(Delete, CategoryPath(id), None, None))
  }

  /** The admin listing and the writes hand back the server's answer with no
      shape check, rejection included; update and delete address
      `/categories/{id}`. Unlike `listCategories`, the admin listing keeps a
      non-array answer and rejects when the server does. */
  lemma CategoryCallsPropagate(id: string, body: Json, server: Server)
    ensures ListAdminCategories(server) == server(Request(Get, AdminCategoriesPath, None, None))
    ensures CreateCategory(body, server) == server(Request(Post, CategoriesPath, None, Some(body)))
    ensures UpdateCategory(id, body, server) == server(Request(Put, CategoryPath(id), None, Some(body)))
    ensures DeleteCategory(id, server) == server(Request(Delete, CategoryPath(id), None, None))
    ensures ListAdminCategories(_ => Resolved(Null)) == Resolved(Null)
    ensures ListCategories(_ => Resolved(Null)) == Arr([])
  {
  }
}

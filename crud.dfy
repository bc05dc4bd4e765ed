/**
 * The JSON bodies the Contact and Note controllers answer with. `success`
 * is true on every body except the 404 one.
 */
module Crud {
  import opened Http
  import opened Store

  datatype Reply<+D> =
    | Listing(count: nat, items: seq<Stored<D>>)   // {success: true, count, data: items}
    | Found(data: Stored<D>)                       // {success: true, data}
    | Created(id: Id, data: Stored<D>)             // {success: true, id, data}
    | NotFound(message: string)                    // {success: false, message}
    | Deleted(message: string)                     // {success: true, message}
  {
    predicate Success()
    {
      !NotFound?
    }
  }
}

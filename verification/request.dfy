/**
 * A production request (Request.java, RequestStatus.java). The Java object's
 * only mutable field is its status; the model replaces the request value in
 * the queue that holds it.
 */
module Requests {
  import opened Wrappers
  import opened Grid
  import opened Recipes

  datatype Status = WaitingForIngredients | Ready | InProgress | Completed

  /**
   * A building as another object refers to it (a request's requestor, a
   * delivery's endpoints, a road-map connection): its name, its location,
   * and a serial number standing for Java object identity, so that a later
   * building that reuses a freed name is not mistaken for the old one.
   */
  datatype Site = Site(name: string, serial: nat, location: Option<Coordinate>)

  /**
   * `requestor` is `None` for a user request (Java passes null). `id` is the
   * request's identity: Java compares requests by reference, and ids are
   * unique because they come from a single post-increment counter.
   */
  datatype Request = Request(id: int, recipe: Recipe, requestor: Option<Site>, isUser: bool, timeRequested: int, status: Status)

  /** The constructor: the given fields, waiting for ingredients. */
  function NewRequest(id: int, recipe: Recipe, requestor: Option<Site>, isUser: bool, time: int): (r: Request)
    ensures r.status == WaitingForIngredients
    ensures r.id == id && r.recipe == recipe && r.requestor == requestor
    ensures r.isUser == isUser && r.timeRequested == time
  {
    Request(id, recipe, requestor, isUser, time, WaitingForIngredients)
  }

  /** `setStatus`: only the status changes. */
  function SetStatus(r: Request, s: Status): (r': Request)
    ensures r'.status == s
    ensures r'.id == r.id && r'.recipe == r.recipe && r'.requestor == r.requestor
    ensures r'.isUser == r.isUser && r'.timeRequested == r.timeRequested
  {
    r.(status := s)
  }

  /** `completed()`. */
  predicate IsCompleted(r: Request)
  {
    r.status == Completed
  }

  /** A fresh request is not completed; marking it completed makes it so, and nothing else changes. */
  lemma CompletionOnlyTouchesStatus(id: int, recipe: Recipe, requestor: Option<Site>, isUser: bool, time: int)
    ensures !IsCompleted(NewRequest(id, recipe, requestor, isUser, time))
    ensures IsCompleted(SetStatus(NewRequest(id, recipe, requestor, isUser, time), Completed))
    ensures SetStatus(SetStatus(NewRequest(id, recipe, requestor, isUser, time), Completed), WaitingForIngredients)
            == NewRequest(id, recipe, requestor, isUser, time)
  {
  }
}

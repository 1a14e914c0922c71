/** observer.go: the order registry that ties orders placed over REST to the trades reported on
    the account channel. */
module Observer {
  import opened Errors

  /** What the registry remembers of an order. */
  datatype ServerableObject = ServerableObject(side: string, symbol: string, orderID: string)

  /** Go's zero ServerableObject{}. */
  const ZeroObject := ServerableObject("", "", "")

  type Items = map<string, ServerableObject>

  /** Every entry is filed under its own order ID. */
  ghost predicate WellKeyed(items: Items)
  {
    forall id | id in items :: items[id].orderID == id
  }

  /** The registry after Observe: an untracked ID gains exactly {side, symbol, id}; a tracked one
      leaves the registry as it was. */
  function Observed(items: Items, side: string, symbol: string, id: string): (r: Items)
    ensures id in r
    ensures id !in items ==> r[id] == ServerableObject(side, symbol, id)
    ensures id in items ==> r == items
    ensures r.Keys == items.Keys + {id}
    ensures forall k | k in items && k != id :: r[k] == items[k]
  {
    if id in items then items else items[id := ServerableObject(side, symbol, id)]
  }

  /** Observe's error: only a tracked ID is refused. */
  function ObserveError(items: Items, id: string): (e: Option<GoError>)
    ensures e.Some? <==> id in items
  {
    if id in items then Some(GoError("already exists: " + id)) else None
  }

  /** The registry after Delete: exactly the key is gone, everything else stays. */
  function Deleted(items: Items, id: string): (r: Items)
    ensures id !in r
    ensures r.Keys == items.Keys - {id}
    ensures forall k | k in r :: r[k] == items[k]
  {
    items - {id}
  }

  /** Delete's error: only an untracked ID is refused. */
  function DeleteError(items: Items, id: string): (e: Option<GoError>)
    ensures e.Some? <==> id !in items
  {
    if id in items then None else Some(GoError("not found: " + id))
  }

  /** Items: the stored object of a tracked ID, or the zero object with a "not registered" error. */
  function Retrieved(items: Items, id: string): (r: (ServerableObject, Option<GoError>))
    ensures r.1 == None <==> id in items
    ensures id in items ==> r.0 == items[id]
    ensures id !in items ==> r == (ZeroObject, Some(GoError("orderID " + id + " not registered")))
  {
    if id in items then (items[id], None)
    else (ZeroObject, Some(GoError("orderID " + id + " not registered")))
  }

  /** WebsocketObserver. Each operation is atomic here (the read/write locks are not modelled). */
  class WebsocketObserver {
    var items: Items

    ghost predicate Valid()
      reads this
    {
      WellKeyed(items)
    }

    /** NewWebsocketObserver: an empty registry. */
    constructor ()
      ensures Valid() && items == map[]
    {
      items := map[];
    }

    /** IsObservable: a pure membership query. */
    method IsObservable(orderID: string) returns (ok: bool)
      ensures ok <==> orderID in items
    {
      ok := orderID in items;
    }

    /** Observe: insert-if-absent. */
    method Observe(side: string, symbol: string, orderID: string) returns (err: Option<GoError>)
      requires Valid()
      modifies this
      ensures Valid()
      ensures err == ObserveError(old(items), orderID)
      ensures items == Observed(old(items), side, symbol, orderID)
    {
      if orderID in items {
        return Some(GoError("already exists: " + orderID));
      }
      items := items[orderID := ServerableObject(side, symbol, orderID)];
      return None;
    }

    /** Items: a lookup that never changes the registry. */
    method Items(orderID: string) returns (obj: ServerableObject, err: Option<GoError>)
      ensures (obj, err) == Retrieved(items, orderID)
      ensures Valid() && err == None ==> obj.orderID == orderID
    {
      if orderID in items {
        return items[orderID], None;
      }
      return ZeroObject, Some(GoError("orderID " + orderID + " not registered"));
    }

    /** Delete: delete-if-present. */
    method Delete(orderID: string) returns (err: Option<GoError>)
      requires Valid()
      modifies this
      ensures Valid()
      ensures err == DeleteError(old(items), orderID)
      ensures items == Deleted(old(items), orderID)
    {
      if orderID !in items {
        return Some(GoError("not found: " + orderID));
      }
      items := items - {orderID};
      return None;
    }
  }

  /** NilObserver: keeps nothing, refuses nothing, tracks nothing. */
  class NilObserver {
    constructor ()
    {
    }

    method Observe(side: string, symbol: string, orderID: string) returns (err: Option<GoError>)
      ensures err == None
    {
      return None;
    }

    method Delete(orderID: string) returns (err: Option<GoError>)
      ensures err == None
    {
      return None;
    }

    method IsObservable(orderID: string) returns (ok: bool)
      ensures !ok
    {
      return false;
    }
  }

  /** Observe and Delete keep every entry filed under its own ID. */
  lemma OperationsKeepWellKeyed(items: Items, side: string, symbol: string, id: string)
    requires WellKeyed(items)
    ensures WellKeyed(Observed(items, side, symbol, id))
    ensures WellKeyed(Deleted(items, id))
  {
  }

  /** After Observe the ID is tracked with the side and symbol it was observed with, unless it was
      tracked already; observing it again is refused. */
  lemma ObserveThenRetrieve(items: Items, side: string, symbol: string, id: string)
    requires id !in items
    ensures ObserveError(items, id) == None
    ensures Retrieved(Observed(items, side, symbol, id), id) == (ServerableObject(side, symbol, id), None)
    ensures ObserveError(Observed(items, side, symbol, id), id).Some?
  {
  }

  /** After Delete the ID is untracked and looking it up fails; deleting it again fails too. */
  lemma DeleteThenRetrieve(items: Items, id: string)
    ensures Retrieved(Deleted(items, id), id).1.Some?
    ensures DeleteError(Deleted(items, id), id).Some?
  {
  }

  /** Delete undoes an Observe of a fresh ID. */
  lemma DeleteUndoesObserve(items: Items, side: string, symbol: string, id: string)
    requires id !in items
    ensures Deleted(Observed(items, side, symbol, id), id) == items
  {
  }

  /** What ListeningReports relies on: a tracked ID always looks up successfully, and only a
      tracked one does. */
  lemma ObservableIffRetrievable(items: Items, id: string)
    ensures id in items <==> Retrieved(items, id).1 == None
  {
  }
}

/**
 The VPN-server registry behind `POST /api/vpn-servers` and
 `DELETE /api/vpn-servers/:id`. The registry is a list of server records whose
 ids are meant to be their positions, 1 to n; adding uses the list's length
 for the new id and deleting renumbers whatever remains.
 */
module VpnRegistry {
  import opened JsValue
  import opened Options
  import opened Lists
  import opened Http

  /** Every field of a server record except its id, as the request body gave them. */
  datatype Fields = Fields(
    country: Value,
    location: Value,
    ip: Value,
    port: Value,
    username: Value,
    password: Value)

  /** A stored server record. The id is whatever the store file holds. */
  datatype Server = Server(id: Value, fields: Fields)

  /** The `:id` route parameter after `parseInt(…, 10)`. */
  datatype RouteId = Parsed(k: int) | NotANumber

  const RequiredMessage := "Country and location are required."
  const AddedMessage := "VPN server added successfully."
  const NotFoundMessage := "Server not found."
  const DeletedMessage := "VPN server deleted successfully."

  /** The registry invariant: the record at position i has id i + 1. */
  predicate IdsContiguous(servers: seq<Server>) {
    forall i :: 0 <= i < |servers| ==> servers[i].id == Num(i + 1)
  }

  /** The record's id is strictly equal to the requested one; `NaN` equals nothing. */
  predicate HasId(server: Server, id: RouteId) {
    id.Parsed? && StrictEquals(server.id, Num(id.k))
  }

  /** Position i holds the first record carrying the requested id. */
  ghost predicate FirstWithId(servers: seq<Server>, id: RouteId, i: int) {
    && 0 <= i < |servers|
    && id.Parsed?
    && servers[i].id == Num(id.k)
    && forall j :: 0 <= j < i ==> servers[j].id != Num(id.k)
  }

  /** Every record keeps its other fields and takes its one-based position as its id. */
  function Renumber(servers: seq<Server>): (r: seq<Server>)
    ensures |r| == |servers|
    ensures IdsContiguous(r)
    ensures forall i :: 0 <= i < |r| ==> r[i].fields == servers[i].fields
  {
    seq(|servers|, i requires 0 <= i < |servers| => servers[i].(id := Num(i + 1)))
  }

  /** `POST /api/vpn-servers`: reject a request without a truthy country and
      location, otherwise append a record numbered one past the list's length. */
  function AddServer(req: Fields, servers: seq<Server>): (r: Reply<Server>)
    ensures r.response.status == 400 <==> !Truthy(req.country) || !Truthy(req.location)
    ensures r.response.status == 400 ==>
      r.response.body == Json(RequiredMessage) && r.store == servers
    ensures r.response.status != 400 ==>
      && r.response == Response(200, Json(AddedMessage))
      && |r.store| == |servers| + 1
      && r.store[..|servers|] == servers
      && r.store[|servers|] == Server(Num(|servers| + 1), req)
    ensures IdsContiguous(servers) ==> IdsContiguous(r.store)
  {
    if !Truthy(req.country) || !Truthy(req.location) then
      Reply(Response(400, Json(RequiredMessage)), servers)
    else
      var created := Server(Num(|servers| + 1), req);
      Reply(Response(200, Json(AddedMessage)), servers + [created])
  }

  /** `DELETE /api/vpn-servers/:id`: remove the first record carrying the id and
      renumber the rest 1 to n - 1 in list order; 404 when no record carries it. */
  function DeleteServer(id: RouteId, servers: seq<Server>): (r: Reply<Server>)
    ensures r.response.status == 404 <==>
      forall j :: 0 <= j < |servers| ==> !HasId(servers[j], id)
    ensures r.response.status == 404 ==>
      r.response.body == Json(NotFoundMessage) && r.store == servers
    ensures r.response.status != 404 ==>
      && r.response == Response(200, Json(DeletedMessage))
      && |r.store| == |servers| - 1
      && IdsContiguous(r.store)
  {
    match FindIndex(servers, s => HasId(s, id))
    case None => Reply(Response(404, Json(NotFoundMessage)), servers)
    case Some(i) => Reply(Response(200, Json(DeletedMessage)), Renumber(RemoveAt(servers, i)))
  }

  /** The first record carrying the id is the one deleted; every other record
      keeps its relative order and its fields, whatever the ids were before. */
  lemma DeleteRemovesFirstMatch(servers: seq<Server>, id: RouteId, i: int)
    requires FirstWithId(servers, id, i)
    ensures DeleteServer(id, servers).response.status == 200
    ensures DeleteServer(id, servers).store == Renumber(RemoveAt(servers, i))
    ensures forall j :: 0 <= j < i ==>
      DeleteServer(id, servers).store[j].fields == servers[j].fields
    ensures forall j :: i <= j < |servers| - 1 ==>
      DeleteServer(id, servers).store[j].fields == servers[j + 1].fields
  {
  }

  /** On a registry that keeps its invariant, id k names position k - 1: deleting
      succeeds exactly for 1 <= k <= n and removes that position. */
  lemma DeleteByPosition(servers: seq<Server>, k: int)
    requires IdsContiguous(servers)
    ensures DeleteServer(Parsed(k), servers).response.status == 200 <==> 1 <= k <= |servers|
    ensures 1 <= k <= |servers| ==>
      DeleteServer(Parsed(k), servers).store == Renumber(RemoveAt(servers, k - 1))
  {
    if 1 <= k <= |servers| {
      DeleteRemovesFirstMatch(servers, Parsed(k), k - 1);
    } else {
      forall j | 0 <= j < |servers|
        ensures !HasId(servers[j], Parsed(k))
      {
        StrictEqualsIsEquality(servers[j].id, Num(k));
      }
    }
  }

  /** Renumbering a registry that already keeps its invariant changes nothing. */
  lemma RenumberKeepsContiguous(servers: seq<Server>)
    requires IdsContiguous(servers)
    ensures Renumber(servers) == servers
  {
  }

  /** The id an add hands out is carried by no record already there. */
  lemma AddedIdIsFresh(servers: seq<Server>)
    requires IdsContiguous(servers)
    ensures forall j :: 0 <= j < |servers| ==>
      !HasId(servers[j], Parsed(|servers| + 1))
  {
  }

  /** Deleting the server just added restores the registry. */
  lemma DeleteUndoesAdd(req: Fields, servers: seq<Server>)
    requires IdsContiguous(servers)
    requires Truthy(req.country) && Truthy(req.location)
    ensures DeleteServer(Parsed(|servers| + 1), AddServer(req, servers).store)
      == Reply(Response(200, Json(DeletedMessage)), servers)
  {
  }
}

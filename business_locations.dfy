/** The `businessLocations` table and the owner claim of
    `POST /api/business/claim`: a location without an owner gets the session
    user as its owner and the claim time; a location that has one keeps it.
    The clock is a parameter. */
module BusinessLocations {
  import opened Wrappers
  import opened Text
  import opened Auth

  /** A row of `businessLocations` (its creation and update timestamps are
      not modelled). */
  datatype BusinessLocation = BusinessLocation(
    id: string,
    name: string,
    address: string,
    phone: Option<string>,
    userId: Option<string>,
    claimedAt: Option<int>)

  /** The JSON body `{ businessId }`. */
  datatype ClaimRequest = ClaimRequest(businessId: Option<string>)

  /** The JSON answer: `{ message }` on success, `{ error }` otherwise. */
  datatype Reply = Reply(status: int, text: string)

  datatype Outcome = Outcome(reply: Reply, rows: seq<BusinessLocation>)

  const Success := Reply(200, "Business claimed successfully")
  const Failure := Reply(500, "Error claiming business")

  /** Location ids are a primary key. */
  predicate DistinctIds(rows: seq<BusinessLocation>) {
    forall i, j :: 0 <= i < j < |rows| ==> rows[i].id != rows[j].id
  }

  /** `findFirst where id = businessId`: the index of the first row with that
      id. */
  function FindById(rows: seq<BusinessLocation>, id: string): (r: Option<nat>)
    ensures r.Some? ==> r.value < |rows| && rows[r.value].id == id
    ensures r.Some? ==> forall j :: 0 <= j < r.value ==> rows[j].id != id
    ensures r.None? ==> forall j :: 0 <= j < |rows| ==> rows[j].id != id
  {
    if rows == [] then None
    else if rows[0].id == id then Some(0)
    else match FindById(rows[1..], id)
      case None => None
      case Some(k) => Some(k + 1)
  }

  /** The update `set userId, claimedAt where id = businessId`: every row with
      that id gets the owner and the time, every other row is unchanged. */
  function SetOwner(rows: seq<BusinessLocation>, id: string, owner: string, now: int): (r: seq<BusinessLocation>)
    ensures |r| == |rows|
    ensures forall k :: 0 <= k < |rows| && rows[k].id == id ==>
      r[k] == rows[k].(userId := Some(owner), claimedAt := Some(now))
    ensures forall k :: 0 <= k < |rows| && rows[k].id != id ==> r[k] == rows[k]
  {
    seq(|rows|, k requires 0 <= k < |rows| =>
      if rows[k].id == id then rows[k].(userId := Some(owner), claimedAt := Some(now)) else rows[k])
  }

  /** The owner-claim route: 401 unless the session has a user id, 500 when
      the body is not JSON, 400 without a business id, 404 when no location
      has it (ids are taken to be uuid-shaped; the lookup's failure on any
      other id is not modelled), 400 when the location already has an owner, 500 when the
      session's user id is not in the users table (the update breaks the
      foreign key); none of these touch the table. Otherwise that location,
      and no other, gets the session user as owner and `now` as claim time,
      and the answer is 200. */
  function ClaimPost(rows: seq<BusinessLocation>, userIds: set<string>, session: Option<Session>,
                     body: Option<ClaimRequest>, now: int): (o: Outcome)
    ensures !Truthy(UserId(session)) ==> o == Outcome(Reply(401, "Authentication required"), rows)
    ensures Truthy(UserId(session)) && body.None? ==> o == Outcome(Failure, rows)
    ensures Truthy(UserId(session)) && body.Some? && !Truthy(body.value.businessId) ==>
      o == Outcome(Reply(400, "Business ID is required"), rows)
    ensures (Truthy(UserId(session)) && body.Some? && Truthy(body.value.businessId)
             && FindById(rows, body.value.businessId.value).None?) ==>
      o == Outcome(Reply(404, "Business not found"), rows)
    ensures (Truthy(UserId(session)) && body.Some? && Truthy(body.value.businessId)
             && var i := FindById(rows, body.value.businessId.value);
             i.Some? && Truthy(rows[i.value].userId)) ==>
      o == Outcome(Reply(400, "Business already claimed"), rows)
    ensures (Truthy(UserId(session)) && body.Some? && Truthy(body.value.businessId)
             && var i := FindById(rows, body.value.businessId.value);
             i.Some? && !Truthy(rows[i.value].userId)) ==>
      if UserId(session).value in userIds then o.reply == Success else o == Outcome(Failure, rows)
    ensures o.reply != Success ==> o.rows == rows
    ensures o.reply == Success ==>
      && Truthy(UserId(session)) && UserId(session).value in userIds
      && body.Some? && Truthy(body.value.businessId)
      && var i := FindById(rows, body.value.businessId.value);
      && i.Some? && !Truthy(rows[i.value].userId)
      && |o.rows| == |rows|
      && o.rows[i.value] == rows[i.value].(userId := UserId(session), claimedAt := Some(now))
      && (DistinctIds(rows) ==> forall k :: 0 <= k < |rows| && k != i.value ==> o.rows[k] == rows[k])
  {
    var user := UserId(session);
    if !Truthy(user) then Outcome(Reply(401, "Authentication required"), rows)
    else if body.None? then Outcome(Failure, rows)
    else if !Truthy(body.value.businessId) then Outcome(Reply(400, "Business ID is required"), rows)
    else
      var id := body.value.businessId.value;
      match FindById(rows, id)
      case None => Outcome(Reply(404, "Business not found"), rows)
      case Some(i) =>
        if Truthy(rows[i].userId) then Outcome(Reply(400, "Business already claimed"), rows)
        else if user.value !in userIds then Outcome(Failure, rows)
        else Outcome(Success, SetOwner(rows, id, user.value, now))
  }

  /** A location that has an owner keeps it: any later claim is refused with
      400 and changes nothing. */
  lemma OwnedIsRefused(rows: seq<BusinessLocation>, userIds: set<string>, session: Option<Session>,
                       id: string, now: int)
    requires Truthy(UserId(session)) && id != ""
    requires FindById(rows, id).Some? && Truthy(rows[FindById(rows, id).value].userId)
    ensures ClaimPost(rows, userIds, session, Some(ClaimRequest(Some(id))), now)
         == Outcome(Reply(400, "Business already claimed"), rows)
  {
  }

  /** The first claim wins: after one user claims a location, a second claim
      of it, by anyone, is refused and the first user stays the owner. */
  lemma FirstClaimWins(rows: seq<BusinessLocation>, userIds: set<string>, first: Option<Session>,
                       second: Option<Session>, id: string, t1: int, t2: int)
    requires Truthy(UserId(second))
    requires ClaimPost(rows, userIds, first, Some(ClaimRequest(Some(id))), t1).reply == Success
    ensures var after := ClaimPost(rows, userIds, first, Some(ClaimRequest(Some(id))), t1).rows;
      && ClaimPost(after, userIds, second, Some(ClaimRequest(Some(id))), t2)
         == Outcome(Reply(400, "Business already claimed"), after)
      && var i := FindById(after, id); i.Some? && after[i.value].userId == UserId(first)
  {
    var after := ClaimPost(rows, userIds, first, Some(ClaimRequest(Some(id))), t1).rows;
    SetOwnerKeepsIds(rows, id, UserId(first).value, t1);
    FindByIdSameIds(rows, after, id);
    OwnedIsRefused(after, userIds, second, id, t2);
  }

  lemma SetOwnerKeepsIds(rows: seq<BusinessLocation>, id: string, owner: string, now: int)
    ensures forall k :: 0 <= k < |rows| ==> SetOwner(rows, id, owner, now)[k].id == rows[k].id
  {
  }

  /** The lookup only depends on the ids. */
  lemma {:induction false} FindByIdSameIds(a: seq<BusinessLocation>, b: seq<BusinessLocation>, id: string)
    requires |a| == |b| && forall k :: 0 <= k < |a| ==> a[k].id == b[k].id
    ensures FindById(a, id) == FindById(b, id)
  {
    if a != [] {
      FindByIdSameIds(a[1..], b[1..], id);
    }
  }

  /** A claim keeps the ids distinct. */
  lemma ClaimKeepsIdsDistinct(rows: seq<BusinessLocation>, userIds: set<string>, session: Option<Session>,
                               body: Option<ClaimRequest>, now: int)
    requires DistinctIds(rows)
    ensures DistinctIds(ClaimPost(rows, userIds, session, body, now).rows)
  {
    var o := ClaimPost(rows, userIds, session, body, now);
    if o.reply == Success {
      SetOwnerKeepsIds(rows, body.value.businessId.value, UserId(session).value, now);
    }
  }

  class LocationStore {
    /** The rows of `businessLocations`. */
    var rows: seq<BusinessLocation>
    /** The ids in the users table. */
    const userIds: set<string>

    predicate Valid()
      reads this
    {
      DistinctIds(rows)
    }

    constructor (ids: set<string>, initial: seq<BusinessLocation>)
      requires DistinctIds(initial)
      ensures Valid() && userIds == ids && rows == initial
    {
      userIds := ids;
      rows := initial;
    }

    /** `POST /api/business/claim` at time `now`. */
    method Claim(session: Option<Session>, body: Option<ClaimRequest>, now: int) returns (reply: Reply)
      requires Valid()
      modifies this
      ensures Valid()
      ensures Outcome(reply, rows) == ClaimPost(old(rows), userIds, session, body, now)
    {
      ClaimKeepsIdsDistinct(rows, userIds, session, body, now);
      var user := UserId(session);
      if !Truthy(user) {
        return Reply(401, "Authentication required");
      }
      if body.None? {
        return Failure;
      }
      if !Truthy(body.value.businessId) {
        return Reply(400, "Business ID is required");
      }
      var id := body.value.businessId.value;
      var found := FindById(rows, id);
      if found.None? {
        return Reply(404, "Business not found");
      }
      if Truthy(rows[found.value].userId) {
        return Reply(400, "Business already claimed");
      }
      if user.value !in userIds {
        return Failure;
      }
      rows := SetOwner(rows, id, user.value, now);
      return Success;
    }
  }
}

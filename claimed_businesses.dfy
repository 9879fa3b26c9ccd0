/** The `claimed_businesses` table and the three routes over it: the
    claim/unclaim toggle and the claim lookup of `/api/places/claim`, the
    first-claim-only insert of `/api/businesses/claim`, and the per-user list
    of `/api/places/claimed`. The database is an in-memory sequence of rows;
    the users table only matters through its set of ids. */
module ClaimedBusinesses {
  import opened Wrappers
  import opened Text
  import opened Auth
  import opened Sequences

  /** A row of `claimed_businesses` (its generated id and timestamp are not
      modelled). */
  datatype ClaimRow = ClaimRow(userId: string, placeId: string, name: string, address: string)

  /** The `placeId`, `name` and `address` of a request body or form. */
  datatype ClaimFields = ClaimFields(placeId: Option<string>, name: Option<string>, address: Option<string>)

  /** What a route answers: a plain status with its text, the JSON
      `{ claimed }`, or the JSON list of a user's claims. */
  datatype Reply = Plain(status: int, message: string) | Claimed(claimed: bool) | Claims(rows: seq<ClaimRow>)

  /** A route's answer together with the table it leaves behind. */
  datatype Outcome = Outcome(reply: Reply, rows: seq<ClaimRow>)

  const Unauthorized := Plain(401, "Unauthorized")
  const ServerError := Plain(500, "Internal Server Error")
  const MissingFields := Plain(400, "Missing required fields")
  const AlreadyClaimed := Plain(400, "Business already claimed")
  const ClaimedOk := Plain(200, "Business claimed successfully")

  /** `!placeId || !name || !address` is false. */
  predicate Complete(f: ClaimFields) {
    Truthy(f.placeId) && Truthy(f.name) && Truthy(f.address)
  }

  function RowFor(user: string, f: ClaimFields): ClaimRow
    requires Complete(f)
  {
    ClaimRow(user, f.placeId.value, f.name.value, f.address.value)
  }

  /** Some row records that `user` claimed `place`. */
  predicate HasClaim(rows: seq<ClaimRow>, user: string, place: string) {
    exists r :: r in rows && r.userId == user && r.placeId == place
  }

  /** Some row, of any user, names `place`. */
  predicate PlaceTaken(rows: seq<ClaimRow>, place: string) {
    exists r :: r in rows && r.placeId == place
  }

  /** At most one row per place. */
  predicate UniquePlaces(rows: seq<ClaimRow>) {
    forall i, j :: 0 <= i < j < |rows| ==> rows[i].placeId != rows[j].placeId
  }

  /** The delete `where userId = user and placeId = place`: every matching
      row goes, every other row stays, in its order. */
  function Without(rows: seq<ClaimRow>, user: string, place: string): (r: seq<ClaimRow>)
    ensures |r| <= |rows|
    ensures forall x {:trigger x in r} :: x in r <==> x in rows && !(x.userId == user && x.placeId == place)
    ensures !HasClaim(rows, user, place) ==> r == rows
  {
    if rows == [] then []
    else
      var rest := Without(rows[1..], user, place);
      assert rows == [rows[0]] + rows[1..];
      if rows[0].userId == user && rows[0].placeId == place then rest
      else [rows[0]] + rest
  }

  /** The table after a toggle by `user`: it flips whether `user` claims the
      place and leaves every other (user, place) claim as it was. A claim is
      removed by deleting exactly its rows; a missing one is added as one new
      last row with the request's place, name and address. */
  function Toggled(rows: seq<ClaimRow>, user: string, f: ClaimFields): (r: seq<ClaimRow>)
    requires Complete(f)
    ensures HasClaim(r, user, f.placeId.value) <==> !HasClaim(rows, user, f.placeId.value)
    ensures forall u, p :: !(u == user && p == f.placeId.value) ==> (HasClaim(r, u, p) <==> HasClaim(rows, u, p))
    ensures HasClaim(rows, user, f.placeId.value) ==> r == Without(rows, user, f.placeId.value)
    ensures !HasClaim(rows, user, f.placeId.value) ==>
      |r| == |rows| + 1 && r[..|rows|] == rows && r[|rows|] == RowFor(user, f)
  {
    var place := f.placeId.value;
    if HasClaim(rows, user, place) then Without(rows, user, place)
    else
      assert RowFor(user, f) in rows + [RowFor(user, f)];
      rows + [RowFor(user, f)]
  }

  /** Toggling twice restores the claim status; when there was no claim it
      restores the table itself. */
  lemma ToggleTwice(rows: seq<ClaimRow>, user: string, f: ClaimFields)
    requires Complete(f)
    ensures HasClaim(Toggled(Toggled(rows, user, f), user, f), user, f.placeId.value)
         == HasClaim(rows, user, f.placeId.value)
    ensures !HasClaim(rows, user, f.placeId.value) ==> Toggled(Toggled(rows, user, f), user, f) == rows
  {
    var place := f.placeId.value;
    if !HasClaim(rows, user, place) {
      var once := rows + [RowFor(user, f)];
      assert Toggled(rows, user, f) == once;
      WithoutAppended(rows, RowFor(user, f), user, place);
    }
  }

  /** The delete keeps the first row exactly when it is not of the pair. */
  lemma WithoutHead(rows: seq<ClaimRow>, user: string, place: string)
    requires rows != []
    ensures Without(rows, user, place)
      == (if rows[0].userId == user && rows[0].placeId == place then [] else [rows[0]]) + Without(rows[1..], user, place)
  {
  }

  /** The delete keeps every copy of every row not of the pair, and keeps
      them in table order: rows are distinct records (each has its own
      generated id), so equal-looking rows all survive. */
  lemma {:induction false} WithoutKeepsCopies(rows: seq<ClaimRow>, user: string, place: string)
    ensures forall x ::
      multiset(Without(rows, user, place))[x] == if x.userId == user && x.placeId == place then 0 else multiset(rows)[x]
    ensures IsSubsequence(Without(rows, user, place), rows)
  {
    if rows != [] {
      var rest := Without(rows[1..], user, place);
      WithoutHead(rows, user, place);
      WithoutKeepsCopies(rows[1..], user, place);
      assert rows == [rows[0]] + rows[1..];
      if rows[0].userId == user && rows[0].placeId == place {
        assert rest == [] || rest[0] != rows[0] by {
          if rest != [] { assert rest[0] in rest; }
        }
      } else {
        assert ([rows[0]] + rest)[1..] == rest;
      }
    }
  }

  /** A table without the pair has neither a first row nor later rows of it. */
  lemma NoClaimSplits(rows: seq<ClaimRow>, user: string, place: string)
    requires rows != [] && !HasClaim(rows, user, place)
    ensures !(rows[0].userId == user && rows[0].placeId == place)
    ensures !HasClaim(rows[1..], user, place)
  {
    assert rows[0] in rows;
    forall x | x in rows[1..] ensures !(x.userId == user && x.placeId == place) {
      assert x in rows;
    }
  }

  /** Deleting a pair that only the appended row has gives the table back. */
  lemma {:induction false} WithoutAppended(rows: seq<ClaimRow>, row: ClaimRow, user: string, place: string)
    requires !HasClaim(rows, user, place) && row.userId == user && row.placeId == place
    ensures Without(rows + [row], user, place) == rows
  {
    var s := rows + [row];
    WithoutHead(s, user, place);
    if rows == [] {
      assert s[1..] == [];
    } else {
      var tail := rows[1..];
      assert s[0] == rows[0] && s[1..] == tail + [row];
      NoClaimSplits(rows, user, place);
      WithoutAppended(tail, row, user, place);
      assert Without(s, user, place) == [rows[0]] + tail;
      assert rows == [rows[0]] + tail;
    }
  }

  // ---------------------------------------------------------------------------
  // /api/places/claim, POST

  /** The toggle route: 401 without a session user, 404 when the session's
      user id is not in the users table, 500 when the body is not JSON, 400
      for a missing field; none of these touch the table. Otherwise the
      (user, place) claim is deleted when it exists and inserted when it does
      not, and the answer says which. */
  function TogglePost(rows: seq<ClaimRow>, userIds: set<string>, session: Option<Session>,
                      body: Option<ClaimFields>): (o: Outcome)
    ensures session.None? || session.value.user.None? ==> o == Outcome(Unauthorized, rows)
    ensures session.Some? && session.value.user.Some? && (UserId(session).None? || UserId(session).value !in userIds) ==>
      o == Outcome(Plain(404, "User not found in database"), rows)
    ensures UserId(session).Some? && UserId(session).value in userIds && body.Some? && !Complete(body.value) ==>
      o == Outcome(MissingFields, rows)
    ensures UserId(session).Some? && UserId(session).value in userIds && body.None? ==>
      o == Outcome(ServerError, rows)
    ensures UserId(session).Some? && UserId(session).value in userIds && body.Some? && Complete(body.value) ==>
      o.reply.Claimed?
    ensures !o.reply.Claimed? ==> o.rows == rows
    ensures o.reply.Claimed? ==>
      && UserId(session).Some? && UserId(session).value in userIds
      && body.Some? && Complete(body.value)
      && o.reply.claimed == !HasClaim(rows, UserId(session).value, body.value.placeId.value)
      && o.rows == Toggled(rows, UserId(session).value, body.value)
  {
    if session.None? || session.value.user.None? then Outcome(Unauthorized, rows)
    else
      var user := UserId(session);
      if user.None? || user.value !in userIds then Outcome(Plain(404, "User not found in database"), rows)
      else if body.None? then Outcome(ServerError, rows)
      else if !Complete(body.value) then Outcome(MissingFields, rows)
      else
        var claimed := HasClaim(rows, user.value, body.value.placeId.value);
        Outcome(Claimed(!claimed), Toggled(rows, user.value, body.value))
  }

  // ---------------------------------------------------------------------------
  // /api/businesses/claim, POST

  /** The first-claim route: 401 without a session, 500 when the form does
      not parse, 400 for a missing field, 400 when any user already claimed
      the place, 500 when the session's user id is missing or not in the users
      table (the insert breaks the not-null or foreign-key constraint),
      otherwise one row for the session user is appended and the answer is
      200. Only the 200 answer changes the table. */
  function ClaimFirstPost(rows: seq<ClaimRow>, userIds: set<string>, session: Option<Session>,
                          form: Option<ClaimFields>): (o: Outcome)
    ensures session.None? ==> o == Outcome(Unauthorized, rows)
    ensures session.Some? && form.None? ==> o == Outcome(ServerError, rows)
    ensures session.Some? && form.Some? && !Complete(form.value) ==> o == Outcome(MissingFields, rows)
    ensures session.Some? && form.Some? && Complete(form.value) && PlaceTaken(rows, form.value.placeId.value) ==>
      o == Outcome(AlreadyClaimed, rows)
    ensures session.Some? && form.Some? && Complete(form.value) && !PlaceTaken(rows, form.value.placeId.value) ==>
      if UserId(session).Some? && UserId(session).value in userIds then o.reply == ClaimedOk
      else o == Outcome(ServerError, rows)
    ensures o.reply != ClaimedOk ==> o.rows == rows
    ensures o.reply == ClaimedOk ==>
      && form.Some? && Complete(form.value)
      && !PlaceTaken(rows, form.value.placeId.value)
      && UserId(session).Some? && UserId(session).value in userIds
      && o.rows == rows + [RowFor(UserId(session).value, form.value)]
  {
    if session.None? then Outcome(Unauthorized, rows)
    else if form.None? then Outcome(ServerError, rows)
    else if !Complete(form.value) then Outcome(MissingFields, rows)
    else if PlaceTaken(rows, form.value.placeId.value) then Outcome(AlreadyClaimed, rows)
    else if UserId(session).None? || UserId(session).value !in userIds then Outcome(ServerError, rows)
    else Outcome(ClaimedOk, rows + [RowFor(UserId(session).value, form.value)])
  }

  /** After a successful first claim exactly one row, the new last one, names
      the place. */
  lemma ClaimFirstSinglesOut(rows: seq<ClaimRow>, userIds: set<string>, session: Option<Session>, form: ClaimFields)
    requires ClaimFirstPost(rows, userIds, session, Some(form)).reply == ClaimedOk
    ensures var after := ClaimFirstPost(rows, userIds, session, Some(form)).rows;
      forall i :: 0 <= i < |after| ==> (after[i].placeId == form.placeId.value <==> i == |rows|)
  {
    var after := ClaimFirstPost(rows, userIds, session, Some(form)).rows;
    forall i | 0 <= i < |after|
      ensures after[i].placeId == form.placeId.value <==> i == |rows|
    {
      if i < |rows| {
        assert after[i] == rows[i];
        assert rows[i] in rows;
      }
    }
  }

  /** The first-claim route keeps at most one row per place. */
  lemma ClaimFirstKeepsPlacesUnique(rows: seq<ClaimRow>, userIds: set<string>, session: Option<Session>,
                                    form: Option<ClaimFields>)
    requires UniquePlaces(rows)
    ensures UniquePlaces(ClaimFirstPost(rows, userIds, session, form).rows)
  {
    var o := ClaimFirstPost(rows, userIds, session, form);
    if o.reply == ClaimedOk {
      ClaimFirstSinglesOut(rows, userIds, session, form.value);
    }
  }

  /** The toggle route does not keep that invariant: two users toggling the
      same place both get `claimed: true`, and both hold a row for it. */
  lemma ToggleSharesPlaces(f: ClaimFields, ada: Session, bob: Session)
    requires Complete(f)
    requires ada.user == Some(SessionUser(Some("ada"), None, None, None))
    requires bob.user == Some(SessionUser(Some("bob"), None, None, None))
    ensures var first := TogglePost([], {"ada", "bob"}, Some(ada), Some(f));
      var second := TogglePost(first.rows, {"ada", "bob"}, Some(bob), Some(f));
      && first.reply == Claimed(true) && UniquePlaces(first.rows)
      && second.reply == Claimed(true) && !UniquePlaces(second.rows)
  {
    var rowAda := RowFor("ada", f);
    var rowBob := RowFor("bob", f);
    assert !HasClaim([], "ada", f.placeId.value);
    var first := TogglePost([], {"ada", "bob"}, Some(ada), Some(f));
    assert first == Outcome(Claimed(true), [rowAda]);
    assert !HasClaim([rowAda], "bob", f.placeId.value);
    var second := TogglePost(first.rows, {"ada", "bob"}, Some(bob), Some(f));
    assert second == Outcome(Claimed(true), [rowAda, rowBob]);
    assert second.rows[0].placeId == second.rows[1].placeId;
  }

  // ---------------------------------------------------------------------------
  // /api/places/claimed, GET

  /** `findMany where userId = user`: exactly the user's rows, in table
      order. */
  function ClaimsOf(rows: seq<ClaimRow>, user: string): (r: seq<ClaimRow>)
    ensures |r| <= |rows|
    ensures forall x :: x in r <==> x in rows && x.userId == user
  {
    if rows == [] then []
    else
      var rest := ClaimsOf(rows[1..], user);
      assert rows == [rows[0]] + rows[1..];
      if rows[0].userId == user then [rows[0]] + rest else rest
  }

  /** The list keeps every copy of every row of the user, in table order. */
  lemma {:induction false} ClaimsOfKeepsCopies(rows: seq<ClaimRow>, user: string)
    ensures forall x :: multiset(ClaimsOf(rows, user))[x] == if x.userId == user then multiset(rows)[x] else 0
    ensures IsSubsequence(ClaimsOf(rows, user), rows)
  {
    if rows != [] {
      var rest := ClaimsOf(rows[1..], user);
      ClaimsOfKeepsCopies(rows[1..], user);
      assert rows == [rows[0]] + rows[1..];
      if rows[0].userId == user {
        assert ClaimsOf(rows, user) == [rows[0]] + rest;
        assert ([rows[0]] + rest)[1..] == rest;
      } else {
        assert ClaimsOf(rows, user) == rest;
        assert rest == [] || rest[0] != rows[0] by {
          if rest != [] { assert rest[0] in rest; }
        }
      }
    }
  }

  // ---------------------------------------------------------------------------
  // The table

  class ClaimStore {
    /** The rows of `claimed_businesses`, in insertion order. */
    var rows: seq<ClaimRow>
    /** The ids in the users table. */
    const userIds: set<string>

    constructor (ids: set<string>, initial: seq<ClaimRow>)
      ensures userIds == ids && rows == initial
    {
      userIds := ids;
      rows := initial;
    }

    /** `POST /api/places/claim`. */
    method TogglePlaceClaim(session: Option<Session>, body: Option<ClaimFields>) returns (reply: Reply)
      modifies this
      ensures Outcome(reply, rows) == TogglePost(old(rows), userIds, session, body)
    {
      if session.None? || session.value.user.None? {
        return Unauthorized;
      }
      var user := session.value.user.value.id;
      if user.None? || user.value !in userIds {
        return Plain(404, "User not found in database");
      }
      if body.None? {
        return ServerError;
      }
      var f := body.value;
      if !Complete(f) {
        return MissingFields;
      }
      if HasClaim(rows, user.value, f.placeId.value) {
        rows := Without(rows, user.value, f.placeId.value);
        return Claimed(false);
      }
      rows := rows + [RowFor(user.value, f)];
      return Claimed(true);
    }

    /** `GET /api/places/claim`: 401 without a session user, 400 without a
        place id, otherwise whether the session user claims the place (a
        session without a user id claims nothing). The table is only read. */
    method PlaceClaimStatus(session: Option<Session>, placeId: Option<string>) returns (reply: Reply)
      ensures session.None? || session.value.user.None? ==> reply == Unauthorized
      ensures session.Some? && session.value.user.Some? && !Truthy(placeId) ==> reply == Plain(400, "Missing placeId")
      ensures session.Some? && session.value.user.Some? && Truthy(placeId) ==>
        reply == Claimed(UserId(session).Some? && HasClaim(rows, UserId(session).value, placeId.value))
    {
      if session.None? || session.value.user.None? {
        return Unauthorized;
      }
      if !Truthy(placeId) {
        return Plain(400, "Missing placeId");
      }
      var user := session.value.user.value.id;
      var claimed := user.Some? && HasClaim(rows, user.value, placeId.value);
      return Claimed(claimed);
    }

    /** `GET /api/places/claimed`: 401 without a session user, otherwise the
        session user's rows (none for a session without a user id). */
    method ClaimedBy(session: Option<Session>) returns (reply: Reply)
      ensures session.None? || session.value.user.None? ==> reply == Unauthorized
      ensures session.Some? && session.value.user.Some? ==>
        && reply.Claims?
        && (forall x :: x in reply.rows <==> x in rows && Some(x.userId) == UserId(session))
        && (forall x :: multiset(reply.rows)[x] == if Some(x.userId) == UserId(session) then multiset(rows)[x] else 0)
        && IsSubsequence(reply.rows, rows)
    {
      if session.None? || session.value.user.None? {
        return Unauthorized;
      }
      var user := session.value.user.value.id;
      if user.None? {
        return Claims([]);
      }
      ClaimsOfKeepsCopies(rows, user.value);
      return Claims(ClaimsOf(rows, user.value));
    }

    /** `POST /api/businesses/claim`. */
    method ClaimFirst(session: Option<Session>, form: Option<ClaimFields>) returns (reply: Reply)
      modifies this
      ensures Outcome(reply, rows) == ClaimFirstPost(old(rows), userIds, session, form)
    {
      if session.None? {
        return Unauthorized;
      }
      if form.None? {
        return ServerError;
      }
      var f := form.value;
      if !Complete(f) {
        return MissingFields;
      }
      if PlaceTaken(rows, f.placeId.value) {
        return AlreadyClaimed;
      }
      var user := UserId(session);
      if user.None? || user.value !in userIds {
        return ServerError;
      }
      rows := rows + [RowFor(user.value, f)];
      return ClaimedOk;
    }
  }
}

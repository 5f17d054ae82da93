/** The transaction controllers of the API (create, filtered list, update, delete)
    over an in-memory store that stands for the `transactions` and `users`
    collections. Each controller is one atomic step on the store; its reply is the
    HTTP status and the message or payload of the JSON envelope. */
module TransactionStore {
  import opened Optional
  import opened JsValues
  import Seqs

  type TxId = nat
  type UserId = string

  const MsPerDay := 86400000

  /** A stored transaction document; `date` is a time value in milliseconds and
      `user` the optional owner reference. */
  datatype Transaction = Transaction(
    id: TxId,
    title: string,
    amount: int,
    description: string,
    date: int,
    category: string,
    transactionType: string,
    user: Option<UserId>)

  predicate IsTransactionType(s: string) {
    s == "income" || s == "expense"
  }

  /** What the transaction schema enforces of every stored document: the required
      strings are non-empty, the type is one of the enum values, the date is valid. */
  predicate SchemaValid(t: Transaction) {
    && t.title != ""
    && t.description != ""
    && t.category != ""
    && IsTransactionType(t.transactionType)
    && InTimeRange(t.date)
  }

  /** The failures a controller answers with: 400, 404, or an error thrown by the
      database library that the error handler turns into 500 (its text is not modelled). */
  datatype Error = BadRequest(message: string) | NotFound(message: string) | ServerError

  /** A reply: the success status with its payload, or a failure (400, 404 or 500). */
  datatype Reply<T> = Done(status: int, value: T) | Failed(error: Error)

  const FillAllFields := "Please fill all fields"
  const InvalidType := "Invalid transaction type"
  const UserNotFound := "User not found"
  const TransactionNotFound := "Transaction not found"

  function IdsOf(s: seq<Transaction>): set<TxId> {
    set i | 0 <= i < |s| :: s[i].id
  }

  /** The database lookup by id: the position of the record with that id, if any. */
  function IndexOf(s: seq<Transaction>, id: TxId): (r: Option<nat>)
    ensures r.Some? ==> r.value < |s| && s[r.value].id == id
    ensures r.None? <==> id !in IdsOf(s)
    decreases |s|
  {
    if s == [] then None
    else if s[0].id == id then Some(0)
    else
      var rest := IndexOf(s[1..], id);
      assert IdsOf(s) == {s[0].id} + IdsOf(s[1..]) by {
        forall x | x in IdsOf(s) ensures x in {s[0].id} + IdsOf(s[1..]) {
          var i :| 0 <= i < |s| && s[i].id == x;
          if i > 0 { assert s[1..][i - 1].id == x; }
        }
        forall x | x in IdsOf(s[1..]) ensures x in IdsOf(s) {
          var i :| 0 <= i < |s[1..]| && s[1..][i].id == x;
          assert s[i + 1].id == x;
        }
      }
      if rest.Some? then Some(rest.value + 1) else None
  }

  // ---------------------------------------------------------------------------
  // Owner resolution

  /** `(req.user && req.user.id) || fromBody || null`: the authenticated user's id
      if there is one, otherwise the caller-supplied value if it is truthy. */
  function ResolveUser(auth: Option<string>, fromBody: Option<Json>): (r: Option<Json>)
    ensures r.Some? ==> Truthy(r)
    ensures auth.Some? && auth.value != "" ==> r == Some(Str(auth.value))
    ensures (auth.None? || auth.value == "") && !Truthy(fromBody) ==> r == None
    ensures (auth.None? || auth.value == "") && Truthy(fromBody) ==> r == fromBody
  {
    if auth.Some? && auth.value != "" then Some(Str(auth.value))
    else if Truthy(fromBody) then fromBody
    else None
  }

  /** The owner ids the model distinguishes; a non-string owner value cannot be cast
      to a document id, so every lookup with it throws. */
  predicate CastsToUserId(owner: Option<Json>) {
    owner.None? || owner.value.Str?
  }

  // ---------------------------------------------------------------------------
  // Create

  /** The guard of the create controller: a falsy title, description, date, category
      or type, or an amount that is null or undefined. */
  predicate MissingRequired(body: Body) {
    || !Truthy(Get(body, "title"))
    || Nullish(Get(body, "amount"))
    || !Truthy(Get(body, "description"))
    || !Truthy(Get(body, "date"))
    || !Truthy(Get(body, "category"))
    || !Truthy(Get(body, "transactionType"))
  }

  /** The type check of the create controller: strict equality with one of the two names. */
  predicate KnownType(v: Option<Json>) {
    v == Some(Str("income")) || v == Some(Str("expense"))
  }

  /** A trimmed string field as `Transaction.create` receives it. */
  function TextOf(body: Body, key: string): string {
    if key in body then Trim(ToJsString(body[key])) else ""
  }

  /** `Transaction.create` rejects the document: the amount is NaN, the date is
      invalid, or a required string is empty once trimmed. */
  predicate CreateCastFails(body: Body, rt: Runtime) {
    || ToNumber(Get(body, "amount"), rt).None?
    || ("date" in body && ToDate(body["date"], rt).None?)
    || TextOf(body, "title") == ""
    || TextOf(body, "description") == ""
    || TextOf(body, "category") == ""
  }

  /** Every check of the create controller passes against the users `users`. */
  predicate CreateAccepted(body: Body, auth: Option<string>, users: map<UserId, Option<seq<TxId>>>, rt: Runtime) {
    var owner := ResolveUser(auth, Get(body, "userId"));
    && !MissingRequired(body)
    && KnownType(Get(body, "transactionType"))
    && CastsToUserId(owner)
    && (owner.Some? ==> owner.value.s in users)
    && !CreateCastFails(body, rt)
  }

  /** The users after `id` is pushed on its owner's transaction list, when the owner
      keeps one; every other list is untouched. */
  function PushOnOwner(users: map<UserId, Option<seq<TxId>>>, owner: Option<UserId>, id: TxId): map<UserId, Option<seq<TxId>>> {
    if owner.Some? && owner.value in users && users[owner.value].Some?
    then users[owner.value := Some(users[owner.value].value + [id])]
    else users
  }

  /** An amount of 0 is falsy but present: a body whose other required fields are
      truthy passes the guard with it. */
  lemma ZeroAmountPassesGuard(body: Body)
    requires "amount" in body && body["amount"] == Num(0)
    requires Truthy(Get(body, "title")) && Truthy(Get(body, "description")) && Truthy(Get(body, "date"))
    requires Truthy(Get(body, "category")) && Truthy(Get(body, "transactionType"))
    ensures !MissingRequired(body)
  {
    assert Get(body, "amount") == Some(Num(0));
    ZeroIsFalsyButPresent();
  }

  /** Pushing onto the owner's list appends the id at its end; every other user, and
      an owner without a list, is untouched. */
  lemma PushOnOwnerAppends(users: map<UserId, Option<seq<TxId>>>, owner: Option<UserId>, id: TxId)
    ensures PushOnOwner(users, owner, id).Keys == users.Keys
    ensures forall u :: u in users && owner != Some(u) ==> PushOnOwner(users, owner, id)[u] == users[u]
    ensures owner.Some? && owner.value in users && users[owner.value].Some? ==>
      PushOnOwner(users, owner, id)[owner.value] == Some(users[owner.value].value + [id])
    ensures owner.Some? && owner.value in users && users[owner.value].None? ==>
      PushOnOwner(users, owner, id) == users
  {
  }

  // ---------------------------------------------------------------------------
  // List

  /** The request parameters the list controller reads: the query string of a GET,
      the body otherwise. */
  function Source(isGet: bool, query: Body, body: Body): Body {
    if isGet then query else body
  }

  /** The `date` condition of a query. */
  datatype DateRange = Anytime | After(bound: int) | Between(from: int, to: int)

  /** The MongoDB filter the list controller builds. */
  datatype Query = Query(user: Option<UserId>, transactionType: Option<Json>, date: DateRange)

  /** The string a query value on a string path is cast to; `null` matches only a
      missing field. */
  function CastString(v: Json): Option<string> {
    if v.Null? then None else Some(ToJsString(v))
  }

  predicate MatchesDate(d: DateRange, t: Transaction) {
    match d
    case Anytime => true
    case After(bound) => t.date > bound
    case Between(from, to) => from <= t.date <= to
  }

  /** A document matches a query: same owner, same type, date in range, for each
      condition the query has. */
  predicate Matches(q: Query, t: Transaction) {
    && (q.user.Some? ==> t.user == q.user)
    && (q.transactionType.Some? ==> CastString(q.transactionType.value) == Some(t.transactionType))
    && MatchesDate(q.date, t)
  }

  function MatchesQuery(q: Query): Transaction -> bool {
    (t: Transaction) => Matches(q, t)
  }

  /** The custom range condition: both dates given, both valid, inclusive. */
  predicate InCustomRange(p: Body, rt: Runtime, t: Transaction) {
    var from := if "startDate" in p then ToDate(p["startDate"], rt) else None;
    var to := if "endDate" in p then ToDate(p["endDate"], rt) else None;
    (Truthy(Get(p, "startDate")) && Truthy(Get(p, "endDate")) && from.Some? && to.Some?) ==>
      from.value <= t.date <= to.value
  }

  predicate OwnerSelected(p: Body, auth: Option<string>, t: Transaction) {
    var owner := ResolveUser(auth, Get(p, "userId"));
    owner.Some? ==> t.user == Some(ToJsString(owner.value))
  }

  predicate TypeSelected(p: Body, t: Transaction) {
    "type" in p && p["type"] != Str("all") ==> CastString(p["type"]) == Some(t.transactionType)
  }

  predicate DateSelected(p: Body, now: int, rt: Runtime, t: Transaction) {
    var frequency := Get(p, "frequency");
    var days := ToNumber(frequency, rt);
    && (frequency.None? || frequency == Some(Str("custom")) ==> InCustomRange(p, rt, t))
    && ((frequency.Some? && frequency != Some(Str("custom")) && days.Some? && days.value > 0) ==>
          t.date > now - days.value * MsPerDay)
  }

  /** The listing rule, stated over the request parameters: the owner if one is
      given; the type unless it is "all" (the default); for a frequency other than
      "custom" (the default) that is a positive number of days, dates strictly after
      `now` minus that many days; for "custom", the inclusive range when both dates
      are valid; no date condition otherwise. */
  predicate Selected(p: Body, auth: Option<string>, now: int, rt: Runtime, t: Transaction) {
    OwnerSelected(p, auth, t) && TypeSelected(p, t) && DateSelected(p, now, rt, t)
  }

  function SelectedBy(p: Body, auth: Option<string>, now: int, rt: Runtime): Transaction -> bool {
    (t: Transaction) => Selected(p, auth, now, rt, t)
  }

  /** The list request makes the database throw: the owner value is not a string, or
      the recency bound falls outside the Date range. */
  predicate ListFails(p: Body, auth: Option<string>, now: int, rt: Runtime) {
    var owner := ResolveUser(auth, Get(p, "userId"));
    var frequency := Get(p, "frequency");
    var days := ToNumber(frequency, rt);
    || !CastsToUserId(owner)
    || (frequency.Some? && frequency != Some(Str("custom")) && days.Some? && days.value > 0
          && !InTimeRange(now - days.value * MsPerDay))
  }

  /** The filter the list controller builds field by field; None when the database
      would throw on it. */
  method BuildQuery(p: Body, auth: Option<string>, now: int, rt: Runtime) returns (q: Option<Query>)
    requires InTimeRange(now)
    ensures q.None? <==> ListFails(p, auth, now, rt)
    ensures q.Some? ==> forall t :: Matches(q.value, t) <==> Selected(p, auth, now, rt, t)
  {
    var transactionType := if "type" in p then p["type"] else Str("all");
    var frequency := if "frequency" in p then p["frequency"] else Str("custom");
    var owner := ResolveUser(auth, Get(p, "userId"));

    var query := Query(None, None, Anytime);
    if owner.Some? {
      if !owner.value.Str? {
        return None;
      }
      query := query.(user := Some(owner.value.s));
    }
    assert forall t: Transaction :: (query.user.Some? ==> t.user == query.user) <==> OwnerSelected(p, auth, t);
    if transactionType != Str("all") {
      query := query.(transactionType := Some(transactionType));
    }
    assert forall t: Transaction :: (query.transactionType.Some? ==>
      CastString(query.transactionType.value) == Some(t.transactionType)) <==> TypeSelected(p, t);
    if frequency != Str("custom") {
      var days := ToNumber(Some(frequency), rt);
      if days.Some? && days.value > 0 {
        var after := now - days.value * MsPerDay;
        if !InTimeRange(after) {
          return None;
        }
        query := query.(date := After(after));
      }
    } else if Truthy(Get(p, "startDate")) && Truthy(Get(p, "endDate")) {
      var from := ToDate(p["startDate"], rt);
      var to := ToDate(p["endDate"], rt);
      if from.Some? && to.Some? {
        query := query.(date := Between(from.value, to.value));
      }
    }
    assert forall t: Transaction :: MatchesDate(query.date, t) <==> DateSelected(p, now, rt, t);
    q := Some(query);
  }

  /** `sort({ date: -1 })`: newest first. */
  predicate NewestFirst(s: seq<Transaction>) {
    forall i, j :: 0 <= i < j < |s| ==> s[i].date >= s[j].date
  }

  /** Putting a record in front of a newest-first sequence whose head is no newer
      keeps it newest first. */
  lemma PrependNewestFirst(t: Transaction, s: seq<Transaction>)
    requires NewestFirst(s)
    requires s == [] || s[0].date <= t.date
    ensures NewestFirst([t] + s)
  {
    var r := [t] + s;
    forall i, j | 0 <= i < j < |r| ensures r[i].date >= r[j].date {
      if i == 0 {
        assert r[j] == s[j - 1];
        assert s[0].date >= s[j - 1].date;
      } else {
        assert r[i] == s[i - 1] && r[j] == s[j - 1];
      }
    }
  }

  /** Insertion of one record into a newest-first sequence. */
  function InsertNewestFirst(t: Transaction, s: seq<Transaction>): (r: seq<Transaction>)
    requires NewestFirst(s)
    ensures |r| == |s| + 1
    ensures r[0] == t || (s != [] && r[0] == s[0])
    ensures NewestFirst(r)
    ensures multiset(r) == multiset(s) + multiset{t}
    decreases |s|
  {
    if s == [] || s[0].date <= t.date then
      PrependNewestFirst(t, s);
      [t] + s
    else
      assert NewestFirst(s[1..]) by {
        forall i, j | 0 <= i < j < |s[1..]| ensures s[1..][i].date >= s[1..][j].date {
          assert s[1..][i] == s[i + 1] && s[1..][j] == s[j + 1];
        }
      }
      var rest := InsertNewestFirst(t, s[1..]);
      assert |s| > 1 ==> s[1..][0] == s[1] && s[0].date >= s[1].date;
      PrependNewestFirst(s[0], rest);
      assert s == [s[0]] + s[1..];
      [s[0]] + rest
  }

  /** The order in which the database returns the matches; MongoDB leaves the order
      of equal dates open, and this is one admissible order. */
  function SortNewestFirst(s: seq<Transaction>): (r: seq<Transaction>)
    ensures NewestFirst(r)
    ensures multiset(r) == multiset(s)
    decreases |s|
  {
    if s == [] then []
    else
      assert s == [s[0]] + s[1..];
      InsertNewestFirst(s[0], SortNewestFirst(s[1..]))
  }

  // ---------------------------------------------------------------------------
  // Update

  /** The keys an update may set, in the order the controller visits them. */
  const Allowed := ["title", "amount", "description", "date", "category", "transactionType"]

  /** An entry of the controller's `updates` object: a coerced amount (None is NaN), a
      coerced date (None is an Invalid Date), a trimmed string, or a non-string value
      passed through unchanged. */
  datatype Coerced = Number(n: Option<int>) | Instant(time: Option<int>) | Trimmed(s: string) | Raw(v: Json)

  /** The outcome of casting and validating one `$set` field. */
  datatype Field<T> = Keep | Set(value: T) | Reject

  /** `updates` holds exactly the whitelisted keys whose body value is neither null nor
      undefined: the amount coerced by `Number`, the date by `new Date`, strings trimmed,
      other values passed through. */
  ghost predicate Collected(body: Body, rt: Runtime, updates: map<string, Coerced>) {
    && (forall k :: k in updates <==> k in Allowed && k in body && body[k] != Null)
    && ("amount" in updates ==> updates["amount"] == Number(ToNumber(Get(body, "amount"), rt)))
    && ("date" in updates ==> updates["date"] == Instant(ToDate(body["date"], rt)))
    && (forall k :: k in updates && k != "amount" && k != "date" ==>
          updates[k] == if body[k].Str? then Trimmed(Trim(body[k].s)) else Raw(body[k]))
  }

  /** The entries of `updates`, built field by field from the body. */
  method CollectUpdates(body: Body, rt: Runtime) returns (updates: map<string, Coerced>)
    ensures Collected(body, rt, updates)
  {
    updates := map[];
    for i := 0 to |Allowed|
      invariant forall k :: k in updates <==> k in Allowed[..i] && k in body && body[k] != Null
      invariant "amount" in updates ==> updates["amount"] == Number(ToNumber(Get(body, "amount"), rt))
      invariant "date" in updates ==> updates["date"] == Instant(ToDate(body["date"], rt))
      invariant forall k :: k in updates && k != "amount" && k != "date" ==>
        updates[k] == if body[k].Str? then Trimmed(Trim(body[k].s)) else Raw(body[k])
    {
      var key := Allowed[i];
      if key in body && body[key] != Null {
        var value := body[key];
        if key == "amount" {
          updates := updates["amount" := Number(ToNumber(Some(value), rt))];
        } else if key == "date" {
          updates := updates["date" := Instant(ToDate(value, rt))];
        } else {
          updates := updates[key := if value.Str? then Trimmed(Trim(value.s)) else Raw(value)];
        }
      }
    }
  }

  /** The 400 check of the update controller: a truthy type that is not one of the two names. */
  predicate RejectsType(updates: map<string, Coerced>) {
    && "transactionType" in updates
    && match updates["transactionType"]
       case Trimmed(s) => s != "" && !IsTransactionType(s)
       case Raw(v) => Truthy(Some(v))
       case Number(n) => n.Some? && n.value != 0
       case Instant(_) => true
  }

  /** The `$set` value of a string path after casting and the required validator. */
  function CastText(updates: map<string, Coerced>, key: string): Field<string> {
    if key !in updates then Keep
    else match updates[key]
      case Trimmed(s) => if s == "" then Reject else Set(s)
      case Raw(v) => if v.Null? then Reject else Set(ToJsString(v))
      case _ => Reject
  }

  function CastAmount(updates: map<string, Coerced>): Field<int> {
    if "amount" !in updates then Keep
    else match updates["amount"]
      case Number(Some(n)) => Set(n)
      case _ => Reject
  }

  function CastDate(updates: map<string, Coerced>): Field<int> {
    if "date" !in updates then Keep
    else match updates["date"]
      case Instant(Some(t)) => Set(t)
      case _ => Reject
  }

  /** The type path: a string cast, then the enum validator. */
  function CastType(updates: map<string, Coerced>): Field<string> {
    match CastText(updates, "transactionType")
    case Set(s) => if IsTransactionType(s) then Set(s) else Reject
    case other => other
  }

  function Pick<T>(f: Field<T>, current: T): T {
    if f.Set? then f.value else current
  }

  // The same update described directly from the request body.

  /** The 400 case of an update: a non-empty type that is neither "income" nor
      "expense" once trimmed, or a truthy non-string type. */
  predicate UpdateTypeInvalid(body: Body) {
    && "transactionType" in body
    && match body["transactionType"]
       case Str(s) => Trim(s) != "" && !IsTransactionType(Trim(s))
       case Null => false
       case Bool(b) => b
       case Num(n) => n != 0
  }

  /** The value a string field takes from the body: unset when null or missing,
      otherwise the trimmed string (or the string form of a non-string), which must
      not be empty. */
  function TextUpdate(body: Body, key: string): Field<string> {
    if key !in body || body[key] == Null then Keep
    else
      var s := if body[key].Str? then Trim(body[key].s) else ToJsString(body[key]);
      if s == "" then Reject else Set(s)
  }

  function AmountUpdate(body: Body, rt: Runtime): Field<int> {
    if "amount" !in body || body["amount"] == Null then Keep
    else
      var n := ToNumber(Get(body, "amount"), rt);
      if n.Some? then Set(n.value) else Reject
  }

  function DateUpdate(body: Body, rt: Runtime): Field<int> {
    if "date" !in body || body["date"] == Null then Keep
    else
      var t := ToDate(body["date"], rt);
      if t.Some? then Set(t.value) else Reject
  }

  function TypeUpdate(body: Body): Field<string> {
    var f := TextUpdate(body, "transactionType");
    if f.Set? && !IsTransactionType(f.value) then Reject else f
  }

  /** The update is refused by the schema's casts or validators. */
  predicate UpdateRejected(body: Body, rt: Runtime) {
    || TextUpdate(body, "title").Reject?
    || AmountUpdate(body, rt).Reject?
    || TextUpdate(body, "description").Reject?
    || DateUpdate(body, rt).Reject?
    || TextUpdate(body, "category").Reject?
    || TypeUpdate(body).Reject?
  }

  /** The record after the update: each whitelisted field present in the body takes
      its new value; every other field, the id and the owner keep theirs. */
  function Updated(t: Transaction, body: Body, rt: Runtime): (r: Transaction)
    requires !UpdateRejected(body, rt)
    requires SchemaValid(t)
    ensures SchemaValid(r)
    ensures r.id == t.id && r.user == t.user
    ensures "title" !in body || body["title"] == Null ==> r.title == t.title
    ensures "amount" !in body || body["amount"] == Null ==> r.amount == t.amount
    ensures "description" !in body || body["description"] == Null ==> r.description == t.description
    ensures "date" !in body || body["date"] == Null ==> r.date == t.date
    ensures "category" !in body || body["category"] == Null ==> r.category == t.category
    ensures "transactionType" !in body || body["transactionType"] == Null ==> r.transactionType == t.transactionType
    ensures "title" in body && body["title"].Str? ==> r.title == Trim(body["title"].s)
    ensures "description" in body && body["description"].Str? ==> r.description == Trim(body["description"].s)
    ensures "category" in body && body["category"].Str? ==> r.category == Trim(body["category"].s)
    ensures "transactionType" in body && body["transactionType"].Str? ==>
      r.transactionType == Trim(body["transactionType"].s)
    ensures "amount" in body && body["amount"] != Null ==> ToNumber(Get(body, "amount"), rt) == Some(r.amount)
    ensures "date" in body && body["date"] != Null ==> ToDate(body["date"], rt) == Some(r.date)
  {
    t.(title := Pick(TextUpdate(body, "title"), t.title),
       amount := Pick(AmountUpdate(body, rt), t.amount),
       description := Pick(TextUpdate(body, "description"), t.description),
       date := Pick(DateUpdate(body, rt), t.date),
       category := Pick(TextUpdate(body, "category"), t.category),
       transactionType := Pick(TypeUpdate(body), t.transactionType))
  }

  /** Applying the same update twice changes nothing more, and an empty body
      changes nothing. */
  lemma UpdateIdempotent(t: Transaction, body: Body, rt: Runtime)
    requires !UpdateRejected(body, rt)
    requires SchemaValid(t)
    ensures Updated(Updated(t, body, rt), body, rt) == Updated(t, body, rt)
    ensures body == map[] ==> Updated(t, body, rt) == t
  {
  }

  /** The 400 check on the collected updates is the check stated on the body. */
  lemma TypeCheckAgreesWithBody(body: Body, rt: Runtime, updates: map<string, Coerced>)
    requires Collected(body, rt, updates)
    ensures RejectsType(updates) <==> UpdateTypeInvalid(body)
    ensures CastType(updates) == TypeUpdate(body)
  {
    assert "transactionType" in Allowed;
  }

  /** Casting a collected string field gives the update the body describes. */
  lemma TextCastAgreesWithBody(body: Body, rt: Runtime, updates: map<string, Coerced>, key: string)
    requires Collected(body, rt, updates)
    requires key == "title" || key == "description" || key == "category"
    ensures CastText(updates, key) == TextUpdate(body, key)
  {
    assert key in Allowed;
  }

  /** Casting the collected amount and date gives the updates the body describes. */
  lemma NumberCastsAgreeWithBody(body: Body, rt: Runtime, updates: map<string, Coerced>)
    requires Collected(body, rt, updates)
    ensures CastAmount(updates) == AmountUpdate(body, rt)
    ensures CastDate(updates) == DateUpdate(body, rt)
  {
    assert "amount" in Allowed && "date" in Allowed;
  }

  /** A removed id leaves the owner's list; every other id stays, in order. */
  function OtherId(id: TxId): TxId -> bool {
    (x: TxId) => x != id
  }

  function OtherRecord(id: TxId): Transaction -> bool {
    (t: Transaction) => t.id != id
  }

  lemma {:induction false} RemoveIdFromList(ids: seq<TxId>, id: TxId, x: TxId, rest: seq<TxId>)
    ensures x in Seqs.Filter(ids, OtherId(id)) <==> x in ids && x != id
    ensures Seqs.Filter(ids + rest, OtherId(id)) == Seqs.Filter(ids, OtherId(id)) + Seqs.Filter(rest, OtherId(id))
    ensures id !in ids ==> Seqs.Filter(ids, OtherId(id)) == ids
  {
    Seqs.FilterMembership(ids, OtherId(id), x);
    Seqs.FilterConcat(ids, rest, OtherId(id));
    if id !in ids {
      Seqs.FilterKeepsAll(ids, OtherId(id));
    }
  }

  // ---------------------------------------------------------------------------
  // The store invariant

  /** Every document satisfies the schema; ids are distinct and below the next id
      the database hands out. */
  ghost predicate WellFormed(records: seq<Transaction>, nextId: TxId) {
    && (forall i :: 0 <= i < |records| ==> records[i].id < nextId && SchemaValid(records[i]))
    && (forall i, j :: 0 <= i < j < |records| ==> records[i].id != records[j].id)
  }

  /** A new document with the next id keeps the store well formed, and its id is fresh. */
  lemma AppendWellFormed(records: seq<Transaction>, nextId: TxId, t: Transaction)
    requires WellFormed(records, nextId)
    requires t.id == nextId && SchemaValid(t)
    ensures WellFormed(records + [t], nextId + 1)
    ensures t.id !in IdsOf(records)
  {
  }

  /** Replacing a document by a valid one with the same id keeps the store well formed. */
  lemma ReplaceWellFormed(records: seq<Transaction>, nextId: TxId, i: nat, t: Transaction)
    requires WellFormed(records, nextId)
    requires i < |records| && t.id == records[i].id && SchemaValid(t)
    ensures WellFormed(records[i := t], nextId)
  {
  }

  /** Deleting the document at position `i` removes exactly the documents with its
      id (there is one) and keeps the store well formed. */
  lemma RemoveWellFormed(records: seq<Transaction>, nextId: TxId, i: nat)
    requires WellFormed(records, nextId)
    requires i < |records|
    ensures var rest := records[..i] + records[i + 1..];
      && WellFormed(rest, nextId)
      && rest == Seqs.Filter(records, OtherRecord(records[i].id))
      && records[i].id !in IdsOf(rest)
      && |rest| == |records| - 1
  {
    var rest := records[..i] + records[i + 1..];
    assert forall j :: 0 <= j < |rest| ==> rest[j] == if j < i then records[j] else records[j + 1];
    Seqs.FilterCutsOut(records, OtherRecord(records[i].id), i);
  }

  /** The matches of a query that agrees with the listing rule, sorted, are the
      selected documents, newest first. */
  lemma {:induction false} ListedAreSelected(records: seq<Transaction>, q: Query, p: Body, auth: Option<string>, now: int, rt: Runtime)
    requires forall t :: Matches(q, t) == Selected(p, auth, now, rt, t)
    ensures var r := SortNewestFirst(Seqs.Filter(records, MatchesQuery(q)));
      && NewestFirst(r)
      && multiset(r) == multiset(Seqs.Filter(records, SelectedBy(p, auth, now, rt)))
      && forall t :: t in r <==> t in records && Selected(p, auth, now, rt, t)
  {
    Seqs.FilterCongruent(records, MatchesQuery(q), SelectedBy(p, auth, now, rt));
    var found := Seqs.Filter(records, MatchesQuery(q));
    var r := SortNewestFirst(found);
    forall t
      ensures t in r <==> t in records && Selected(p, auth, now, rt, t)
    {
      assert t in r <==> t in multiset(found);
      Seqs.FilterMembership(records, SelectedBy(p, auth, now, rt), t);
    }
  }

  /** A list request with no parameters and no authenticated user selects every
      document, so a created document appears in it. */
  lemma UnfilteredListSelectsAll(now: int, rt: Runtime, t: Transaction)
    ensures Selected(map[], None, now, rt, t)
    ensures !ListFails(map[], None, now, rt)
  {
    assert Get(map[], "userId") == None;
  }

  /** A document whose id the store no longer holds is in no listing of the store. */
  lemma {:induction false} DeletedIdNotListed(records: seq<Transaction>, listed: seq<Transaction>, id: TxId,
                                              p: Body, auth: Option<string>, now: int, rt: Runtime)
    requires id !in IdsOf(records)
    requires forall t :: t in listed <==> t in records && Selected(p, auth, now, rt, t)
    ensures forall t :: t in listed ==> t.id != id
  {
    forall t | t in listed
      ensures t.id != id
    {
      var i :| 0 <= i < |records| && records[i] == t;
      assert records[i].id in IdsOf(records);
    }
  }

  /** The body of the grocery example: every field present and of the right type. */
  const Groceries: Body := map[
    "title" := Str("Groceries"), "amount" := Num(1200), "category" := Str("Food"),
    "description" := Str("Weekly grocery shopping"), "transactionType" := Str("expense"),
    "date" := Str("2025-01-15")]

  /** The grocery expense is accepted from an anonymous caller whenever the runtime
      reads its date as a valid date, and is stored with amount 1200 as an expense. */
  lemma GroceriesAccepted(rt: Runtime, users: map<UserId, Option<seq<TxId>>>)
    requires rt.parseDate("2025-01-15").Some? && InTimeRange(rt.parseDate("2025-01-15").value)
    ensures CreateAccepted(Groceries, None, users, rt)
    ensures TextOf(Groceries, "title") == "Groceries" && TextOf(Groceries, "category") == "Food"
    ensures ToNumber(Get(Groceries, "amount"), rt) == Some(1200)
    ensures Get(Groceries, "transactionType") == Some(Str("expense"))
  {
    assert "userId" !in Groceries;
    assert Groceries["title"] == Str("Groceries") && Groceries["category"] == Str("Food");
    assert Groceries["description"] == Str("Weekly grocery shopping");
    TrimKeepsClean("Groceries");
    TrimKeepsClean("Food");
    TrimKeepsClean("Weekly grocery shopping");
  }

  // ---------------------------------------------------------------------------
  // The store

  class Store {
    /** The `transactions` collection, in insertion order. */
    var records: seq<Transaction>
    /** The `users` collection: each user's optional denormalised list of transaction ids. */
    var users: map<UserId, Option<seq<TxId>>>
    /** The next id the database hands out. */
    var nextId: TxId

    ghost predicate Valid()
      reads this
    {
      WellFormed(records, nextId)
    }

    constructor (users: map<UserId, Option<seq<TxId>>>)
      ensures Valid()
      ensures records == [] && this.users == users && nextId == 0
    {
      records := [];
      this.users := users;
      nextId := 0;
    }

    /** addTransactionController. */
    method Create(body: Body, auth: Option<string>, rt: Runtime) returns (reply: Reply<Transaction>)
      requires Valid()
      modifies this
      ensures Valid()
      ensures MissingRequired(body) ==> reply == Failed(BadRequest(FillAllFields))
      ensures !MissingRequired(body) && !KnownType(Get(body, "transactionType")) ==>
        reply == Failed(BadRequest(InvalidType))
      ensures var owner := ResolveUser(auth, Get(body, "userId"));
        !MissingRequired(body) && KnownType(Get(body, "transactionType"))
        && owner.Some? && owner.value.Str? && owner.value.s !in old(users) ==>
        reply == Failed(NotFound(UserNotFound))
      ensures var owner := ResolveUser(auth, Get(body, "userId"));
        !MissingRequired(body) && KnownType(Get(body, "transactionType"))
        && (!CastsToUserId(owner) || ((owner.Some? ==> owner.value.s in old(users)) && CreateCastFails(body, rt))) ==>
        reply == Failed(ServerError)
      ensures reply.Done? <==> CreateAccepted(body, auth, old(users), rt)
      ensures reply.Failed? ==> records == old(records) && users == old(users) && nextId == old(nextId)
      ensures reply.Done? ==>
        var t := reply.value;
        && reply.status == 201
        && t.id !in IdsOf(old(records))
        && records == old(records) + [t]
        && t.title == TextOf(body, "title")
        && t.description == TextOf(body, "description")
        && t.category == TextOf(body, "category")
        && ToNumber(Get(body, "amount"), rt) == Some(t.amount)
        && ToDate(body["date"], rt) == Some(t.date)
        && Get(body, "transactionType") == Some(Str(t.transactionType))
        && t.user == (var owner := ResolveUser(auth, Get(body, "userId"));
                      if owner.Some? then Some(owner.value.s) else None)
        && users == PushOnOwner(old(users), t.user, t.id)
    {
      if MissingRequired(body) {
        return Failed(BadRequest(FillAllFields));
      }
      if !KnownType(Get(body, "transactionType")) {
        return Failed(BadRequest(InvalidType));
      }

      var owner := ResolveUser(auth, Get(body, "userId"));
      var user: Option<UserId> := None;
      if owner.Some? {
        if !owner.value.Str? {
          return Failed(ServerError);
        }
        if owner.value.s !in users {
          return Failed(NotFound(UserNotFound));
        }
        user := Some(owner.value.s);
      }

      // Transaction.create casts and validates the document against the schema.
      if CreateCastFails(body, rt) {
        return Failed(ServerError);
      }
      var t := Transaction(nextId, TextOf(body, "title"), ToNumber(Get(body, "amount"), rt).value,
                           TextOf(body, "description"), ToDate(body["date"], rt).value,
                           TextOf(body, "category"), body["transactionType"].s, user);
      AppendWellFormed(records, nextId, t);
      records := records + [t];
      nextId := nextId + 1;
      if user.Some? && users[user.value].Some? {
        users := users[user.value := Some(users[user.value].value + [t.id])];
      }
      reply := Done(201, t);
    }

    /** getAllTransactionController; `now` is the server clock. */
    method List(isGet: bool, query: Body, body: Body, auth: Option<string>, now: int, rt: Runtime)
      returns (reply: Reply<seq<Transaction>>)
      requires InTimeRange(now)
      ensures var p := Source(isGet, query, body);
        reply.Failed? <==> ListFails(p, auth, now, rt)
      ensures reply.Failed? ==> reply.error == ServerError
      ensures reply.Done? ==> reply.status == 200 && NewestFirst(reply.value)
      ensures var p := Source(isGet, query, body);
        reply.Done? ==> multiset(reply.value) == multiset(Seqs.Filter(records, SelectedBy(p, auth, now, rt)))
      ensures var p := Source(isGet, query, body);
        reply.Done? ==> forall t :: t in reply.value <==> t in records && Selected(p, auth, now, rt, t)
    {
      var p := Source(isGet, query, body);
      var q := BuildQuery(p, auth, now, rt);
      if q.None? {
        return Failed(ServerError);
      }
      ListedAreSelected(records, q.value, p, auth, now, rt);
      reply := Done(200, SortNewestFirst(Seqs.Filter(records, MatchesQuery(q.value))));
    }

    /** updateTransactionController. */
    method Update(id: TxId, body: Body, rt: Runtime) returns (reply: Reply<Transaction>)
      requires Valid()
      modifies this
      ensures Valid()
      ensures users == old(users) && nextId == old(nextId)
      ensures UpdateTypeInvalid(body) ==> reply == Failed(BadRequest(InvalidType))
      ensures !UpdateTypeInvalid(body) && UpdateRejected(body, rt) ==> reply == Failed(ServerError)
      ensures !UpdateTypeInvalid(body) && !UpdateRejected(body, rt) && id !in IdsOf(old(records)) ==>
        reply == Failed(NotFound(TransactionNotFound))
      ensures reply.Failed? ==> records == old(records)
      ensures reply.Done? ==>
        && reply.status == 200
        && !UpdateRejected(body, rt)
        && |records| == |old(records)|
        && (forall i :: 0 <= i < |records| && old(records)[i].id != id ==> records[i] == old(records)[i])
        && (forall i :: 0 <= i < |records| && old(records)[i].id == id ==>
              records[i] == reply.value == Updated(old(records)[i], body, rt))
      ensures reply.Done? <==> !UpdateTypeInvalid(body) && !UpdateRejected(body, rt) && id in IdsOf(old(records))
    {
      var updates := CollectUpdates(body, rt);
      TypeCheckAgreesWithBody(body, rt, updates);
      TextCastAgreesWithBody(body, rt, updates, "title");
      TextCastAgreesWithBody(body, rt, updates, "description");
      TextCastAgreesWithBody(body, rt, updates, "category");
      NumberCastsAgreeWithBody(body, rt, updates);
      if RejectsType(updates) {
        return Failed(BadRequest(InvalidType));
      }

      var title := CastText(updates, "title");
      var amount := CastAmount(updates);
      var description := CastText(updates, "description");
      var date := CastDate(updates);
      var category := CastText(updates, "category");
      var transactionType := CastType(updates);
      if title.Reject? || amount.Reject? || description.Reject? || date.Reject? || category.Reject?
        || transactionType.Reject? {
        return Failed(ServerError);
      }

      var index := IndexOf(records, id);
      if index.None? {
        return Failed(NotFound(TransactionNotFound));
      }
      var i := index.value;
      var current := records[i];
      var t := current.(title := Pick(title, current.title),
                        amount := Pick(amount, current.amount),
                        description := Pick(description, current.description),
                        date := Pick(date, current.date),
                        category := Pick(category, current.category),
                        transactionType := Pick(transactionType, current.transactionType));
      assert t == Updated(current, body, rt);
      ReplaceWellFormed(records, nextId, i, t);
      records := records[i := t];
      reply := Done(200, t);
    }

    /** deleteTransactionController; the acting user is the authenticated one or the
        body's `userId`. */
    method Delete(id: TxId, auth: Option<string>, body: Body) returns (reply: Reply<TxId>)
      requires Valid()
      modifies this
      ensures Valid()
      ensures nextId == old(nextId)
      ensures id !in IdsOf(old(records)) ==>
        reply == Failed(NotFound(TransactionNotFound)) && records == old(records) && users == old(users)
      ensures id in IdsOf(old(records)) ==>
        && records == Seqs.Filter(old(records), OtherRecord(id))
        && |records| == |old(records)| - 1
        && id !in IdsOf(records)
      ensures var actor := ResolveUser(auth, Get(body, "userId"));
        id in IdsOf(old(records)) ==>
        users == (if actor.Some? && actor.value.Str? && actor.value.s in old(users)
                     && old(users)[actor.value.s].Some?
                  then old(users)[actor.value.s := Some(Seqs.Filter(old(users)[actor.value.s].value, OtherId(id)))]
                  else old(users))
      ensures var actor := ResolveUser(auth, Get(body, "userId"));
        reply.Done? <==> id in IdsOf(old(records)) && CastsToUserId(actor)
      ensures reply.Done? ==> reply.status == 200 && reply.value == id
      ensures var actor := ResolveUser(auth, Get(body, "userId"));
        id in IdsOf(old(records)) && !CastsToUserId(actor) ==> reply == Failed(ServerError)
    {
      var index := IndexOf(records, id);
      if index.None? {
        return Failed(NotFound(TransactionNotFound));
      }
      var i := index.value;
      RemoveWellFormed(records, nextId, i);
      records := records[..i] + records[i + 1..];

      var actor := ResolveUser(auth, Get(body, "userId"));
      if actor.Some? {
        if !actor.value.Str? {
          return Failed(ServerError);
        }
        var u := actor.value.s;
        if u in users && users[u].Some? {
          users := users[u := Some(Seqs.Filter(users[u].value, OtherId(id)))];
        }
      }
      reply := Done(200, id);
    }
  }
}

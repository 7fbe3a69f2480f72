/**
 * server/src/controllers/authController.ts: registration, login, the
 * saved-crops toggle and the capped search history, over a user collection
 * kept as a map from user id to record.
 */
module AuthController {
  import opened Options
  import opened Text
  import opened Seqs
  import opened Schemas

  type UserId = nat

  /** A `User` document (server/src/models/User.ts); `location` and `createdAt` are not modelled. */
  datatype UserRecord = UserRecord(
    name: string, email: string, phone: string, passwordHash: string,
    role: Role, language: Language, savedCrops: seq<string>, searchHistory: seq<string>)

  /** The register body; an absent field is the empty string. */
  datatype RegisterRequest = RegisterRequest(
    name: string, email: string, phone: string, password: string, role: string, preferredLanguage: string)

  datatype Body = Message(text: string) | AccountBody(account: Account) | SavedBody(saved: bool)

  /** An HTTP status and JSON body. */
  datatype Reply = Reply(status: nat, body: Body)

  const InvalidCredentials: string := "Invalid email or password"
  const HistoryLimit: nat := 10

  /** The public part of a record: what register and login send back. */
  function AccountOf(id: UserId, u: UserRecord): Account {
    Account(id, u.name, u.email, u.role, u.language)
  }

  predicate EmailTaken(users: map<UserId, UserRecord>, email: string) {
    exists id :: id in users && users[id].email == email
  }

  /** `role || 'farmer'` followed by the schema's enum check. */
  function ResolveRole(s: string): (r: Option<Role>)
    ensures s == "" ==> r == Some(Farmer)
    ensures s != "" ==> (r.Some? <==> s == "farmer" || s == "expert")
    ensures s != "" && r.Some? ==> RoleName(r.value) == s
  {
    if s == "" then Some(DefaultRole) else ParseRole(s)
  }

  /** `preferredLanguage || 'en'` followed by the schema's enum check. */
  function ResolveLanguage(s: string): (r: Option<Language>)
    ensures s == "" || s == "en" ==> r == Some(En)
    ensures s == "hi" ==> r == Some(Hi)
    ensures s != "" && s != "en" && s != "hi" ==> r == None
  {
    if s == "" then Some(DefaultLanguage) else ParseLanguage(s)
  }

  /**
   * `User.create` passes schema validation: the required strings are present
   * (the name after the schema's `trim`) and the role and language are enum values.
   */
  function Creatable(req: RegisterRequest): (ok: bool)
    ensures ok <==>
      !AllSpace(req.name) && req.email != "" && req.phone != ""
      && (req.role == "" || req.role == "farmer" || req.role == "expert")
      && (req.preferredLanguage == "" || req.preferredLanguage == "en" || req.preferredLanguage == "hi")
  {
    Trim(req.name) != "" && req.email != "" && req.phone != ""
    && ResolveRole(req.role).Some? && ResolveLanguage(req.preferredLanguage).Some?
  }

  /** The record `User.create` stores: defaults applied, nothing saved, no history. */
  function NewUser(req: RegisterRequest, passwordHash: string): (u: UserRecord)
    requires Creatable(req)
    ensures u.name == Trim(req.name) && u.email == req.email && u.passwordHash == passwordHash
    ensures req.role == "" ==> u.role == Farmer
    ensures req.preferredLanguage == "" ==> u.language == En
    ensures req.role != "" ==> RoleName(u.role) == req.role
    ensures req.preferredLanguage == "hi" ==> u.language == Hi
    ensures req.preferredLanguage == "en" ==> u.language == En
    ensures u.savedCrops == [] && u.searchHistory == []
  {
    UserRecord(Trim(req.name), req.email, req.phone, passwordHash,
      ResolveRole(req.role).value, ResolveLanguage(req.preferredLanguage).value, [], [])
  }

  /** `$pull`: every occurrence of `x` goes; the rest keep their order and multiplicity. */
  function Pull(s: seq<string>, x: string): (r: seq<string>)
    ensures x !in r
    ensures forall y :: y != x ==> multiset(r)[y] == multiset(s)[y]
  {
    Filter(y => y != x, s)
  }

  /** `$addToSet`: `x` is appended unless already present. */
  function AddToSet(s: seq<string>, x: string): (r: seq<string>)
    ensures x in r
    ensures x in s ==> r == s
    ensures x !in s ==> r == s + [x]
  {
    if x in s then s else s + [x]
  }

  /**
   * What `saveCrop` does to a saved list: membership of `x` flips, `x` is never
   * left duplicated, and every other id keeps its multiplicity.
   */
  function Toggle(s: seq<string>, x: string): (r: seq<string>)
    ensures (x in r) <==> (x !in s)
    ensures multiset(r)[x] <= 1
    ensures forall y :: y != x ==> multiset(r)[y] == multiset(s)[y]
  {
    if x in s then Pull(s, x)
    else
      var r := AddToSet(s, x);
      assert multiset(r) == multiset(s) + multiset{x};
      r
  }

  /** Saving an id that was not saved and then un-saving it restores the list exactly. */
  lemma ToggleTwiceRestores(s: seq<string>, x: string)
    requires x !in s
    ensures Toggle(Toggle(s, x), x) == s
  {
    var p := (y: string) => y != x;
    FilterAppend(p, s, [x]);
    FilterAll(p, s);
    assert Filter(p, [x]) == [] by { assert [x][1..] == []; }
  }

  /** The newest `HistoryLimit` entries of `s`, oldest first. */
  function KeepLast(s: seq<string>): (r: seq<string>)
    ensures |r| == if |s| <= HistoryLimit then |s| else HistoryLimit
    ensures r == s[|s| - |r|..]
  {
    if |s| <= HistoryLimit then s else s[|s| - HistoryLimit..]
  }

  /** `$push` with `$each: [q], $slice: -10`: the query appended, then the last ten kept. */
  function PushCapped(h: seq<string>, q: string): (r: seq<string>)
    ensures |r| == if |h| + 1 <= HistoryLimit then |h| + 1 else HistoryLimit
    ensures r == (h + [q])[|h| + 1 - |r|..]
    ensures r[|r| - 1] == q
  {
    KeepLast(h + [q])
  }

  /** Trimming early does not change what a later trim keeps. */
  lemma KeepLastAbsorbs(x: seq<string>, y: seq<string>)
    ensures KeepLast(KeepLast(x) + y) == KeepLast(x + y)
  {
    var z := x + y;
    var k := KeepLast(x);
    var d := |x| - |k|;
    assert k + y == z[d..];
  }

  /** The history after pushing each query of `qs` in turn. */
  function PushAll(h: seq<string>, qs: seq<string>): seq<string>
    decreases |qs|
  {
    if qs == [] then h else PushAll(PushCapped(h, qs[0]), qs[1..])
  }

  lemma PushAllStep(h: seq<string>, qs: seq<string>)
    requires qs != []
    ensures PushAll(h, qs) == PushAll(KeepLast(h + [qs[0]]), qs[1..])
  {
  }

  lemma Regroup(h: seq<string>, qs: seq<string>)
    requires qs != []
    ensures KeepLast(KeepLast(h + [qs[0]]) + qs[1..]) == KeepLast(h + qs)
  {
    KeepLastAbsorbs(h + [qs[0]], qs[1..]);
    assert h + [qs[0]] + qs[1..] == h + qs;
  }

  /** After any non-empty run of searches the history is the newest ten of all entries, oldest first. */
  lemma {:induction false} PushAllKeepsNewestTen(h: seq<string>, qs: seq<string>)
    requires qs != []
    ensures PushAll(h, qs) == KeepLast(h + qs)
    decreases |qs|
  {
    PushAllStep(h, qs);
    var h1 := KeepLast(h + [qs[0]]);
    if |qs| == 1 {
      assert qs[1..] == [] && qs == [qs[0]];
    } else {
      PushAllKeepsNewestTen(h1, qs[1..]);
      Regroup(h, qs);
    }
  }

  /** The `User` collection, with the unique index on `email`. */
  class UserStore {
    var users: map<UserId, UserRecord>
    var nextId: nat

    ghost predicate Valid()
      reads this
    {
      && (forall id :: id in users ==> id < nextId)
      && (forall a, b :: a in users && b in users && users[a].email == users[b].email ==> a == b)
    }

    constructor ()
      ensures Valid() && users == map[] && nextId == 0
    {
      users := map[];
      nextId := 0;
    }

    /**
     * `register`: a taken email is refused with 400 and nothing stored; a
     * request the schema rejects gives 500; otherwise the new record is stored
     * under a fresh id and its public view returned with 201.
     */
    method Register(req: RegisterRequest, passwordHash: string) returns (reply: Reply)
      requires Valid()
      modifies this
      ensures Valid()
      ensures EmailTaken(old(users), req.email) ==>
        reply == Reply(400, Message("Email already registered")) && users == old(users)
      ensures !EmailTaken(old(users), req.email) && !Creatable(req) ==>
        reply == Reply(500, Message("Server error")) && users == old(users)
      ensures !EmailTaken(old(users), req.email) && Creatable(req) ==>
        (old(nextId) !in old(users)
         && users == old(users)[old(nextId) := NewUser(req, passwordHash)]
         && reply == Reply(201, AccountBody(AccountOf(old(nextId), NewUser(req, passwordHash)))))
    {
      if exists id :: id in users && users[id].email == req.email {
        return Reply(400, Message("Email already registered"));
      }
      if !Creatable(req) {
        return Reply(500, Message("Server error"));
      }
      var u := NewUser(req, passwordHash);
      var id := nextId;
      users := users[id := u];
      nextId := nextId + 1;
      reply := Reply(201, AccountBody(AccountOf(id, u)));
    }

    /**
     * `login`: an unknown email and a wrong password get the same 401 reply;
     * `matches` stands for `bcrypt.compare`.
     */
    method Login(email: string, password: string, matches: (string, string) -> bool) returns (reply: Reply)
      requires Valid()
      ensures !EmailTaken(users, email) ==> reply == Reply(401, Message(InvalidCredentials))
      ensures forall id :: id in users && users[id].email == email ==>
        reply == if matches(password, users[id].passwordHash)
                 then Reply(200, AccountBody(AccountOf(id, users[id])))
                 else Reply(401, Message(InvalidCredentials))
    {
      if !exists id :: id in users && users[id].email == email {
        return Reply(401, Message(InvalidCredentials));
      }
      var id :| id in users && users[id].email == email;
      if !matches(password, users[id].passwordHash) {
        return Reply(401, Message(InvalidCredentials));
      }
      reply := Reply(200, AccountBody(AccountOf(id, users[id])));
    }

    /**
     * `saveCrop`: no id gives 400, an unknown user 404, both with no change;
     * otherwise the id's membership in the user's list flips and `saved`
     * reports the new membership.
     */
    method SaveCrop(userId: UserId, cropId: string) returns (reply: Reply)
      requires Valid()
      modifies this
      ensures Valid() && nextId == old(nextId)
      ensures cropId == "" ==> reply == Reply(400, Message("cropId is required")) && users == old(users)
      ensures cropId != "" && userId !in old(users) ==>
        reply == Reply(404, Message("User not found")) && users == old(users)
      ensures cropId != "" && userId in old(users) ==>
        (users == old(users)[userId := old(users)[userId].(savedCrops := Toggle(old(users)[userId].savedCrops, cropId))]
         && reply == Reply(200, SavedBody(cropId in users[userId].savedCrops))
         && reply.body.saved == (cropId !in old(users)[userId].savedCrops))
    {
      if cropId == "" {
        return Reply(400, Message("cropId is required"));
      }
      if userId !in users {
        return Reply(404, Message("User not found"));
      }
      var u := users[userId];
      var alreadySaved := cropId in u.savedCrops;
      var saved := if alreadySaved then Pull(u.savedCrops, cropId) else AddToSet(u.savedCrops, cropId);
      users := users[userId := u.(savedCrops := saved)];
      reply := Reply(200, SavedBody(!alreadySaved));
    }

    /**
     * `addToSearchHistory`: an empty query gives 400 with no change; otherwise
     * 200, and the user's history (if the user exists) gets the query as its
     * newest entry, capped at ten.
     */
    method AddToSearchHistory(userId: UserId, query: string) returns (reply: Reply)
      requires Valid()
      modifies this
      ensures Valid() && nextId == old(nextId)
      ensures query == "" ==> reply == Reply(400, Message("Query is required")) && users == old(users)
      ensures query != "" ==> reply == Reply(200, Message("Search history updated"))
      ensures query != "" && userId !in old(users) ==> users == old(users)
      ensures query != "" && userId in old(users) ==>
        users == old(users)[userId := old(users)[userId].(searchHistory := PushCapped(old(users)[userId].searchHistory, query))]
    {
      if query == "" {
        return Reply(400, Message("Query is required"));
      }
      if userId in users {
        var u := users[userId];
        users := users[userId := u.(searchHistory := PushCapped(u.searchHistory, query))];
      }
      reply := Reply(200, Message("Search history updated"));
    }
  }
}

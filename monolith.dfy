/** The monolithic server: its own schemas, the bearer-token gate, user
    registration and login, activities, goals, the one-entry-per-day
    nutrition log, the chat reply, and the order in which requests meet
    the routes. `bcrypt` is the functions `hash` and `compare`, `jwt.sign`
    the function `sign`, `jwt.verify` the function `verify`; the clock is
    the parameter `now` and local midnight the parameter `midnight`. */
module Monolith {
  import opened Json
  import opened Text
  import opened Schemas

  // ---------------------------------------------------------------- schemas

  const ActivityModel: Schema := Schema(
    map["userId" := TRef, "type" := TString, "duration" := TNumber, "calories" := TNumber,
        "distance" := TNumber, "steps" := TNumber, "intensity" := TString, "date" := TDate],
    {"userId", "type", "duration"},
    map[],
    map["calories" := Fixed(Num(0)), "distance" := Fixed(Num(0)), "steps" := Fixed(Num(0)),
        "intensity" := Fixed(Str("moderate")), "date" := Now],
    false)

  const GoalModel: Schema := Schema(
    map["createdAt" := TDate, "updatedAt" := TDate, "userId" := TRef, "title" := TString,
        "description" := TString, "type" := TString, "target" := TNumber, "current" := TNumber,
        "deadline" := TDate, "category" := TString],
    {"userId", "title", "type", "target", "deadline"},
    map[],
    map["current" := Fixed(Num(0)), "category" := Fixed(Str("fitness"))],
    true)

  const NutritionModel: Schema := Schema(
    map["userId" := TRef, "date" := TDate, "calories" := TNumber, "protein" := TNumber,
        "carbs" := TNumber, "fat" := TNumber, "water" := TNumber, "meals" := TList],
    {"userId"},
    map[],
    map["date" := Now, "calories" := Fixed(Num(0)), "protein" := Fixed(Num(0)),
        "carbs" := Fixed(Num(0)), "fat" := Fixed(Num(0)), "water" := Fixed(Num(0)),
        "meals" := Fixed(List([]))],
    false)

  /** The facts about the monolith's schemas that its handlers rely on. */
  lemma ModelFacts()
    ensures GoalModel.timestamps && "updatedAt" in GoalModel.fields && GoalModel.fields["updatedAt"] == TDate
    ensures "date" in ActivityModel.fields && ActivityModel.fields["date"] == TDate && "date" in ActivityModel.defaults
    ensures "date" in NutritionModel.fields && NutritionModel.fields["date"] == TDate && "date" in NutritionModel.defaults
    ensures !ActivityModel.timestamps && !NutritionModel.timestamps
  {
  }

  /** `new Activity({ ...body, userId })`: the token's identity is written
      last, so the caller owns the activity whatever the body says. */
  function NewActivity(owner: nat, body: Doc, now: int): (r: Doc)
    ensures RefIn(r, "userId") == Some(owner) && "date" in r
    ensures forall f | f in body && f != "userId" :: f in r && r[f] == body[f]
  {
    Build(ActivityModel, body["userId" := Ref(owner)], now)
  }

  /** `new Goal({ ...body, userId })`: the caller owns the goal whatever the
      body says. */
  function NewGoal(owner: nat, body: Doc, now: int): (r: Doc)
    ensures RefIn(r, "userId") == Some(owner)
    ensures forall f | f in body && f !in {"userId", "createdAt", "updatedAt"} :: f in r && r[f] == body[f]
  {
    Build(GoalModel, body["userId" := Ref(owner)], now)
  }

  /** A user document: the three required strings and the profile defaults. */
  datatype Member = Member(name: string, email: string, password: string,
                           weight: int, height: int, age: int, activityLevel: string,
                           goals: seq<nat>, createdAt: int, updatedAt: int)

  /** `new User({ name, email, password })`: weight 70, height 170, age 25,
      activity level 'moderate', no goals, both timestamps the save time. */
  function NewMember(name: string, email: string, password: string, now: int): Member {
    Member(name, email, password, 70, 170, 25, "moderate", [], now, now)
  }

  /** The user schema's `required` checks. */
  predicate MemberValid(m: Member) {
    m.name != "" && m.email != "" && m.password != ""
  }

  // ------------------------------------------------------------ the gate

  /** What `jwt.verify` decodes from a token this server signed. */
  datatype Claims = Claims(userId: nat, email: string)

  /** What `jwt.sign` is asked to sign: the claims and the lifetime. */
  datatype TokenRequest = TokenRequest(claims: Claims, expiresInSeconds: nat)

  /** `expiresIn: '24h'`. */
  const OneDay: nat := 24 * 60 * 60

  /** `authHeader && authHeader.split(' ')[1]`, with a missing or empty
      second word as `None`. */
  function TokenOf(header: Option<string>): (r: Option<string>)
    ensures r.Some? ==> r.value != [] && ' ' !in r.value
  {
    if header.None? then None
    else
      var words := Split(header.value, ' ');
      if |words| < 2 || words[1] == [] then None else Some(words[1])
  }

  datatype Gate = Refuse(resp: Response) | Admit(user: Claims)

  /** `authenticateToken`: 401 without a token, 403 when verification fails,
      otherwise the request goes on with the decoded claims. */
  function Authenticate(header: Option<string>, verify: string -> Option<Claims>): (g: Gate)
    ensures TokenOf(header).None? ==> g == Refuse(Response(401, Message("Access token required")))
    ensures TokenOf(header).Some? && verify(TokenOf(header).value).None? ==>
              g == Refuse(Response(403, Message("Invalid token")))
    ensures g.Admit? <==> TokenOf(header).Some? && verify(TokenOf(header).value).Some?
    ensures g.Admit? ==> g.user == verify(TokenOf(header).value).value
  {
    match TokenOf(header)
    case None => Refuse(Response(401, Message("Access token required")))
    case Some(token) =>
      match verify(token)
      case None => Refuse(Response(403, Message("Invalid token")))
      case Some(claims) => Admit(claims)
  }

  /** The token is the word after the first space, whatever the scheme word
      before it is and whatever words follow it. */
  lemma BearerToken(scheme: string, token: string, extra: string)
    requires ' ' !in scheme && ' ' !in token && token != []
    requires extra == [] || extra[0] == ' '
    ensures TokenOf(Some(scheme + " " + token + extra)) == Some(token)
  {
    var h := scheme + " " + token + extra;
    assert h == scheme + [' '] + (token + extra);
    SplitPrefix(scheme, ' ', token + extra);
    if extra == [] {
      assert token + extra == token;
      SplitWhole(token, ' ');
    } else {
      assert token + extra == token + [' '] + extra[1..];
      SplitPrefix(token, ' ', extra[1..]);
    }
  }

  /** An empty second word, as in 'Bearer ' or 'Bearer  x', carries no
      token. With `BearerToken` and `OneWordHeader` this covers every
      header. */
  lemma EmptySecondWord(scheme: string, rest: string)
    requires ' ' !in scheme
    requires rest == [] || rest[0] == ' '
    ensures TokenOf(Some(scheme + " " + rest)) == None
  {
    assert scheme + " " + rest == scheme + [' '] + rest;
    SplitPrefix(scheme, ' ', rest);
    if rest == [] {
      SplitWhole(rest, ' ');
    } else {
      assert rest == [] + [' '] + rest[1..];
      SplitPrefix([], ' ', rest[1..]);
    }
  }

  /** A header of one word carries no token. */
  lemma OneWordHeader(h: string)
    requires ' ' !in h
    ensures TokenOf(Some(h)) == None
  {
    SplitWhole(h, ' ');
  }

  // ------------------------------------------------- newest-first listings

  /** The date a listing sorts on. */
  function DateKey(s: Saved): int {
    match DateIn(s.doc, "date")
    case Some(ms) => ms
    case None => 0
  }

  predicate NewestFirstOrder(s: seq<Saved>) {
    forall k, m | 0 <= k < m < |s| :: DateKey(s[k]) >= DateKey(s[m])
  }

  /** Place `x` after the entries newer than it. */
  function InsertByDate(x: Saved, s: seq<Saved>): (r: seq<Saved>)
    ensures multiset(r) == multiset(s) + multiset{x}
  {
    if s == [] || DateKey(s[0]) <= DateKey(x) then [x] + s
    else
      assert s == [s[0]] + s[1..];
      [s[0]] + InsertByDate(x, s[1..])
  }

  /** No entry of `s` is newer than `bound`. */
  predicate NoneNewer(s: seq<Saved>, bound: int) {
    forall k | 0 <= k < |s| :: DateKey(s[k]) <= bound
  }

  lemma {:induction false} InsertNoneNewer(x: Saved, s: seq<Saved>, bound: int)
    requires NoneNewer(s, bound) && DateKey(x) <= bound
    ensures NoneNewer(InsertByDate(x, s), bound)
  {
    if s != [] && DateKey(s[0]) > DateKey(x) {
      InsertNoneNewer(x, s[1..], bound);
    }
  }

  /** Inserting into a newest-first list keeps it newest first. */
  lemma {:induction false} InsertKeepsOrder(x: Saved, s: seq<Saved>)
    requires NewestFirstOrder(s)
    ensures NewestFirstOrder(InsertByDate(x, s))
  {
    if s != [] && DateKey(s[0]) > DateKey(x) {
      var rest := InsertByDate(x, s[1..]);
      InsertKeepsOrder(x, s[1..]);
      InsertNoneNewer(x, s[1..], DateKey(s[0]));
      var r := [s[0]] + rest;
      forall k, m | 0 <= k < m < |r| ensures DateKey(r[k]) >= DateKey(r[m]) {
        assert r[m] == rest[m - 1];
        if k > 0 {
          assert r[k] == rest[k - 1];
        }
      }
    }
  }

  /** `.sort({ date: -1 })`. */
  function NewestFirst(s: seq<Saved>): (r: seq<Saved>)
    ensures multiset(r) == multiset(s)
  {
    if s == [] then []
    else
      assert s == [s[0]] + s[1..];
      InsertByDate(s[0], NewestFirst(s[1..]))
  }

  /** Sorting puts the newest first. */
  lemma {:induction false} NewestFirstOrdered(s: seq<Saved>)
    ensures NewestFirstOrder(NewestFirst(s))
  {
    if s != [] {
      NewestFirstOrdered(s[1..]);
      InsertKeepsOrder(s[0], NewestFirst(s[1..]));
    }
  }

  /** `.limit(n)`. */
  function Limit(s: seq<Saved>, n: nat): (r: seq<Saved>)
    ensures |r| <= n && |r| <= |s| && r == s[..|r|]
    ensures |r| == n || r == s
  {
    if |s| <= n then s else s[..n]
  }

  /** `page` is what `find({ field: owner }).sort({ date: -1 }).limit(cap)`
      answers: stored documents of the owner, each once, newest first, at
      most `cap` of them, and any of the owner's documents left out is no
      newer than the last one listed. */
  predicate NewestPage(page: seq<Saved>, records: map<nat, Doc>, field: string, owner: nat, cap: nat) {
    && |page| <= cap
    && (forall s | s in page :: s.id in records && s.doc == records[s.id] && RefIn(s.doc, field) == Some(owner))
    && (forall k, m | 0 <= k < m < |page| :: page[k].id != page[m].id)
    && NewestFirstOrder(page)
    && (forall id | id in records && RefIn(records[id], field) == Some(owner) && Saved(id, records[id]) !in page ::
          |page| == cap && 0 < cap && DateKey(Saved(id, records[id])) <= DateKey(page[cap - 1]))
  }

  /** A list with increasing ids holds each entry once. */
  lemma {:induction false} IncreasingOnce(s: seq<Saved>, x: Saved)
    requires forall k, m | 0 <= k < m < |s| :: s[k].id < s[m].id
    ensures multiset(s)[x] <= 1
  {
    if s != [] {
      assert s == [s[0]] + s[1..];
      IncreasingOnce(s[1..], x);
      if s[0] == x {
        assert x !in s[1..];
      }
    }
  }

  /** An entry at two places of a list counts twice. */
  lemma TwiceCounted(s: seq<Saved>, k: nat, m: nat)
    requires k < m < |s| && s[k] == s[m]
    ensures multiset(s)[s[k]] >= 2
  {
    assert s == s[..m] + [s[m]] + s[m + 1..];
    assert s[k] in s[..m];
  }

  /** Every document a listing page shows is a stored document of the owner. */
  lemma PageOwned(records: map<nat, Doc>, field: string, owner: nat, bound: nat, cap: nat)
    ensures var page := Limit(NewestFirst(Matching(records, field, owner, bound)), cap);
            forall s | s in page :: s.id in records && s.doc == records[s.id] && RefIn(s.doc, field) == Some(owner)
  {
    var owned := Matching(records, field, owner, bound);
    var sorted := NewestFirst(owned);
    var page := Limit(sorted, cap);
    forall s | s in page
      ensures s.id in records && s.doc == records[s.id] && RefIn(s.doc, field) == Some(owner)
    {
      assert s in sorted;
      assert s in multiset(owned);
    }
  }

  /** A listing page shows each document once. */
  lemma PageOnce(records: map<nat, Doc>, field: string, owner: nat, bound: nat, cap: nat)
    ensures var page := Limit(NewestFirst(Matching(records, field, owner, bound)), cap);
            forall k, m | 0 <= k < m < |page| :: page[k].id != page[m].id
  {
    var owned := Matching(records, field, owner, bound);
    var sorted := NewestFirst(owned);
    var page := Limit(sorted, cap);
    PageOwned(records, field, owner, bound, cap);
    forall k, m | 0 <= k < m < |page| ensures page[k].id != page[m].id {
      if page[k].id == page[m].id {
        assert page[k] in page && page[m] in page;
        assert page[k] == page[m];
        assert sorted[k] == sorted[m];
        TwiceCounted(sorted, k, m);
        IncreasingOnce(owned, page[k]);
      }
    }
  }

  /** A document of the owner that a page leaves out is no newer than the
      page's last entry, and the page is full. */
  lemma PageNewest(records: map<nat, Doc>, field: string, owner: nat, bound: nat, cap: nat)
    requires forall id | id in records :: id < bound
    requires 0 < cap
    ensures var page := Limit(NewestFirst(Matching(records, field, owner, bound)), cap);
            forall id | id in records && RefIn(records[id], field) == Some(owner) && Saved(id, records[id]) !in page ::
              |page| == cap && DateKey(Saved(id, records[id])) <= DateKey(page[cap - 1])
  {
    var owned := Matching(records, field, owner, bound);
    var sorted := NewestFirst(owned);
    var page := Limit(sorted, cap);
    NewestFirstOrdered(owned);
    forall id | id in records && RefIn(records[id], field) == Some(owner) && Saved(id, records[id]) !in page
      ensures |page| == cap && DateKey(Saved(id, records[id])) <= DateKey(page[cap - 1])
    {
      MatchingComplete(records, field, owner, bound, id);
      assert Saved(id, records[id]) in multiset(sorted);
      var j :| 0 <= j < |sorted| && sorted[j] == Saved(id, records[id]);
      assert page != sorted;
      assert page[cap - 1] == sorted[cap - 1];
    }
  }

  /** The listing of the monolith meets `NewestPage`. */
  lemma NewestPageHolds(records: map<nat, Doc>, field: string, owner: nat, bound: nat, cap: nat)
    requires forall id | id in records :: id < bound
    requires 0 < cap
    ensures NewestPage(Limit(NewestFirst(Matching(records, field, owner, bound)), cap), records, field, owner, cap)
  {
    PageOwned(records, field, owner, bound, cap);
    PageOnce(records, field, owner, bound, cap);
    PageNewest(records, field, owner, bound, cap);
    NewestFirstOrdered(Matching(records, field, owner, bound));
  }

  // ------------------------------------------------------------ the store

  /** A user's email, the key `User.findOne({ email })` looks up. */
  function MemberEmail(m: Member): string {
    m.email
  }

  /** The answer to a successful register or login. */
  function WelcomeFor(message: string, id: nat, m: Member, sign: TokenRequest -> string): Body {
    Welcome(message, sign(TokenRequest(Claims(id, m.email), OneDay)), id, m.name, m.email)
  }

  /** A document whose schema declares `date` a date, holding a `date`
      that casts, holds a date. */
  lemma Dated(s: Schema, doc: Doc)
    requires "date" in doc && "date" in s.fields && s.fields["date"] == TDate && Castable(s, doc)
    ensures DateIn(doc, "date").Some?
  {
  }

  /** The length of a day in milliseconds. */
  const DayMs: int := 24 * 60 * 60 * 1000

  /** The document is dated within the day that starts at `midnight`. */
  predicate OnDay(doc: Doc, midnight: int) {
    DateIn(doc, "date").Some? && midnight <= DateIn(doc, "date").value < midnight + DayMs
  }

  /** The ids of `owner`'s entries dated within that day. */
  function DayEntries(records: map<nat, Doc>, owner: nat, midnight: int): set<nat> {
    set id | id in records && RefIn(records[id], "userId") == Some(owner) && OnDay(records[id], midnight)
  }

  /** `Nutrition.findOne({ userId, date in that day })`: the first such entry. */
  function FirstOfDay(records: map<nat, Doc>, owner: nat, midnight: int, bound: nat): (r: Option<nat>)
    ensures r.Some? ==> r.value < bound && r.value in DayEntries(records, owner, midnight)
    ensures r.Some? ==> forall id | id in DayEntries(records, owner, midnight) && id < bound :: r.value <= id
    ensures r.None? ==> forall id | id in DayEntries(records, owner, midnight) :: id >= bound
  {
    if bound == 0 then None
    else
      var first := FirstOfDay(records, owner, midnight, bound - 1);
      var id := bound - 1;
      if first.Some? then first
      else if id in records && RefIn(records[id], "userId") == Some(owner) && OnDay(records[id], midnight) then Some(id)
      else None
  }

  /** The entry a day starts with when it has none: the caller's, dated at
      midnight, with the schema's zero defaults. */
  function NewDay(owner: nat, midnight: int, now: int): (r: Doc)
    ensures RefIn(r, "userId") == Some(owner) && DateIn(r, "date") == Some(midnight)
  {
    Build(NutritionModel, map["userId" := Ref(owner), "date" := Date(midnight)], now)
  }

  /** Every stored document has an id below `bound`, validates against
      `s` and is dated. */
  predicate Stocked(records: map<nat, Doc>, s: Schema, bound: nat) {
    forall id | id in records :: id < bound && Validates(s, records[id]) && DateIn(records[id], "date").Some?
  }

  /** Storing a valid, dated document under a new id keeps a collection stocked. */
  lemma StockedAdd(records: map<nat, Doc>, s: Schema, bound: nat, id: nat, doc: Doc)
    requires Stocked(records, s, bound) && id <= bound
    requires Validates(s, doc) && DateIn(doc, "date").Some?
    ensures Stocked(records[id := doc], s, bound + 1) && Stocked(records, s, bound + 1)
  {
  }

  /** Replacing a stored document by a valid, dated one keeps a collection stocked. */
  lemma StockedPut(records: map<nat, Doc>, s: Schema, bound: nat, id: nat, doc: Doc)
    requires Stocked(records, s, bound) && id < bound
    requires Validates(s, doc) && DateIn(doc, "date").Some?
    ensures Stocked(records[id := doc], s, bound)
  {
  }

  /** Every stored document has an id below `bound` and casts against `s`. */
  predicate AllCast(records: map<nat, Doc>, s: Schema, bound: nat) {
    forall id | id in records :: id < bound && Castable(s, records[id])
  }

  lemma AllCastPut(records: map<nat, Doc>, s: Schema, bound: nat, id: nat, doc: Doc)
    requires AllCast(records, s, bound) && id <= bound && Castable(s, doc)
    ensures AllCast(records[id := doc], s, if id == bound then bound + 1 else bound)
  {
  }

  class FitServer {
    var users: map<nat, Member>
    var activities: map<nat, Doc>
    var goals: map<nat, Doc>
    var nutrition: map<nat, Doc>
    /** The next id each collection hands out; ids grow with insertion. */
    var nextUser: nat
    var nextActivity: nat
    var nextGoal: nat
    var nextEntry: nat

    ghost predicate UsersValid()
      reads this`users, this`nextUser
    {
      (forall id | id in users :: id < nextUser && MemberValid(users[id])) && UniqueEmails(users, MemberEmail)
    }

    ghost predicate ActivitiesValid()
      reads this`activities, this`nextActivity
    {
      Stocked(activities, ActivityModel, nextActivity)
    }

    /** Goals are validated when created; an update only casts. */
    ghost predicate GoalsValid()
      reads this`goals, this`nextGoal
    {
      AllCast(goals, GoalModel, nextGoal)
    }

    ghost predicate NutritionValid()
      reads this`nutrition, this`nextEntry
    {
      Stocked(nutrition, NutritionModel, nextEntry)
    }

    ghost predicate Valid()
      reads this
    {
      UsersValid() && ActivitiesValid() && GoalsValid() && NutritionValid()
    }

    constructor ()
      ensures Valid()
      ensures users == map[] && activities == map[] && goals == map[] && nutrition == map[]
      ensures nextUser == nextActivity == nextGoal == nextEntry == 0
    {
      users, activities, goals, nutrition := map[], map[], map[], map[];
      nextUser, nextActivity, nextGoal, nextEntry := 0, 0, 0, 0;
    }

    /** POST /api/auth/register: an email already registered answers 400
        'User already exists'; a user the schema refuses answers 500; otherwise
        the user is stored with a hashed password and the profile defaults,
        and 201 carries a 24-hour token for `{ userId, email }`. A call that
        throws (`fault`, such as `bcrypt.hash` of a missing password) answers
        500 'Server error' with its message, the user stored only when the
        throw comes after the save. */
    method Register(name: string, email: string, password: string,
                    hash: string -> string, sign: TokenRequest -> string, now: int,
                    fault: Fault) returns (resp: Response)
      requires Valid()
      modifies this`users, this`nextUser
      ensures Valid()
      ensures var m := NewMember(name, email, hash(password), now);
              var kept := users == old(users) && nextUser == old(nextUser);
              var thrown := Response(500, ServerError(Thrown(if fault.FaultAt? then fault.message else "")));
              if fault.Throws(Lookup) then kept && resp == thrown
              else if FindByEmail(old(users), MemberEmail, email, old(nextUser)).Some? then
                kept && resp == Response(400, Message("User already exists"))
              else if fault.Throws(Hash) then kept && resp == thrown
              else if !MemberValid(m) then kept && resp == Response(500, ServerError(ValidationFailed))
              else if fault.Throws(Save) then kept && resp == thrown
              else
                && users == old(users)[old(nextUser) := m] && nextUser == old(nextUser) + 1
                && FindByEmail(users, MemberEmail, email, nextUser) == Some(old(nextUser))
                && resp == (if fault.Throws(Sign) then thrown
                            else Response(201, WelcomeFor("User created successfully", old(nextUser), m, sign)))
    {
      if fault.Throws(Lookup) {
        return Response(500, ServerError(Thrown(fault.message)));
      }
      if FindByEmail(users, MemberEmail, email, nextUser).Some? {
        return Response(400, Message("User already exists"));
      }
      if fault.Throws(Hash) {
        return Response(500, ServerError(Thrown(fault.message)));
      }
      var m := NewMember(name, email, hash(password), now);
      if !MemberValid(m) {
        return Response(500, ServerError(ValidationFailed));
      }
      if fault.Throws(Save) {
        return Response(500, ServerError(Thrown(fault.message)));
      }
      AddMember(m);
      if fault.Throws(Sign) {
        return Response(500, ServerError(Thrown(fault.message)));
      }
      resp := Response(201, WelcomeFor("User created successfully", nextUser - 1, m, sign));
    }

    /** `user.save()` of a valid user whose email no one has: stored under
        the next id and found by its email afterwards. */
    method AddMember(m: Member)
      requires Valid() && MemberValid(m)
      requires FindByEmail(users, MemberEmail, m.email, nextUser).None?
      modifies this`users, this`nextUser
      ensures Valid()
      ensures users == old(users)[old(nextUser) := m] && nextUser == old(nextUser) + 1
      ensures FindByEmail(users, MemberEmail, m.email, nextUser) == Some(old(nextUser))
    {
      FindsAdded(users, MemberEmail, nextUser, m);
      users := users[nextUser := m];
      nextUser := nextUser + 1;
    }

    /** POST /api/auth/login: an unknown email and a wrong password give the
        same 400 'Invalid credentials'; a match gives a 24-hour token. A call
        that throws (`fault`, such as `bcrypt.compare` of a missing password)
        answers 500 'Server error' with its message. */
    method Login(email: string, password: string, compare: (string, string) -> bool,
                 sign: TokenRequest -> string, fault: Fault) returns (resp: Response)
      requires Valid()
      ensures var found := FindByEmail(users, MemberEmail, email, nextUser);
              if fault.Throws(Lookup) then
                resp == Response(500, ServerError(Thrown(fault.message)))
              else if found.None? then
                resp == Response(400, Message("Invalid credentials"))
              else if fault.Throws(Compare) then
                resp == Response(500, ServerError(Thrown(fault.message)))
              else if !compare(password, users[found.value].password) then
                resp == Response(400, Message("Invalid credentials"))
              else if fault.Throws(Sign) then
                resp == Response(500, ServerError(Thrown(fault.message)))
              else
                resp == Response(200, WelcomeFor("Login successful", found.value, users[found.value], sign))
      ensures resp.status == 200 ==> exists id | id in users :: users[id].email == email
    {
      if fault.Throws(Lookup) {
        return Response(500, ServerError(Thrown(fault.message)));
      }
      var found := FindByEmail(users, MemberEmail, email, nextUser);
      if found.None? {
        return Response(400, Message("Invalid credentials"));
      }
      if fault.Throws(Compare) {
        return Response(500, ServerError(Thrown(fault.message)));
      }
      if !compare(password, users[found.value].password) {
        return Response(400, Message("Invalid credentials"));
      }
      if fault.Throws(Sign) {
        return Response(500, ServerError(Thrown(fault.message)));
      }
      resp := Response(200, WelcomeFor("Login successful", found.value, users[found.value], sign));
    }

    /** POST /api/activities: `{ ...body, userId }`, so the caller owns it
        whatever the body says; 201 when it validates, 500 otherwise. */
    method CreateActivity(user: Claims, body: Doc, now: int) returns (resp: Response)
      requires Valid()
      modifies this`activities, this`nextActivity
      ensures Valid()
      ensures var doc := NewActivity(user.userId, body, now);
              if Validates(ActivityModel, doc) then
                && activities == old(activities)[old(nextActivity) := doc] && nextActivity == old(nextActivity) + 1
                && resp == Response(201, Record(Saved(old(nextActivity), doc)))
              else
                && activities == old(activities) && nextActivity == old(nextActivity)
                && resp == Response(500, ServerError(ValidationFailed))
    {
      resp := SaveActivity(NewActivity(user.userId, body, now));
    }

    /** `activity.save()`: a valid activity is stored under the next id and
        sent with 201; an invalid one is refused with 500. */
    method SaveActivity(doc: Doc) returns (resp: Response)
      requires Valid() && "date" in doc
      modifies this`activities, this`nextActivity
      ensures Valid()
      ensures if Validates(ActivityModel, doc) then
                && activities == old(activities)[old(nextActivity) := doc] && nextActivity == old(nextActivity) + 1
                && resp == Response(201, Record(Saved(old(nextActivity), doc)))
              else
                && activities == old(activities) && nextActivity == old(nextActivity)
                && resp == Response(500, ServerError(ValidationFailed))
    {
      if !Validates(ActivityModel, doc) {
        return Response(500, ServerError(ValidationFailed));
      }
      ModelFacts();
      Dated(ActivityModel, doc);
      StockedAdd(activities, ActivityModel, nextActivity, nextActivity, doc);
      activities := activities[nextActivity := doc];
      resp := Response(201, Record(Saved(nextActivity, doc)));
      nextActivity := nextActivity + 1;
    }

    /** GET /api/activities: the caller's 50 newest activities, newest first. */
    method ListActivities(user: Claims) returns (resp: Response)
      requires Valid()
      ensures resp.status == 200 && resp.body.Records?
      ensures NewestPage(resp.body.recs, activities, "userId", user.userId, 50)
    {
      NewestPageHolds(activities, "userId", user.userId, nextActivity, 50);
      resp := Response(200, Records(Limit(NewestFirst(Matching(activities, "userId", user.userId, nextActivity)), 50)));
    }

    /** POST /api/goals: `{ ...body, userId }`; 201 when it validates, 500 otherwise. */
    method CreateGoal(user: Claims, body: Doc, now: int) returns (resp: Response)
      requires Valid()
      modifies this`goals, this`nextGoal
      ensures Valid()
      ensures var doc := NewGoal(user.userId, body, now);
              if Validates(GoalModel, doc) then
                && goals == old(goals)[old(nextGoal) := doc] && nextGoal == old(nextGoal) + 1
                && resp == Response(201, Record(Saved(old(nextGoal), doc)))
              else
                && goals == old(goals) && nextGoal == old(nextGoal)
                && resp == Response(500, ServerError(ValidationFailed))
    {
      resp := SaveGoal(NewGoal(user.userId, body, now));
    }

    /** `goal.save()`: a valid goal is stored under the next id and sent with
        201; an invalid one is refused with 500. */
    method SaveGoal(doc: Doc) returns (resp: Response)
      requires Valid()
      modifies this`goals, this`nextGoal
      ensures Valid()
      ensures if Validates(GoalModel, doc) then
                && goals == old(goals)[old(nextGoal) := doc] && nextGoal == old(nextGoal) + 1
                && resp == Response(201, Record(Saved(old(nextGoal), doc)))
              else
                && goals == old(goals) && nextGoal == old(nextGoal)
                && resp == Response(500, ServerError(ValidationFailed))
    {
      if !Validates(GoalModel, doc) {
        return Response(500, ServerError(ValidationFailed));
      }
      AllCastPut(goals, GoalModel, nextGoal, nextGoal, doc);
      goals := goals[nextGoal := doc];
      resp := Response(201, Record(Saved(nextGoal, doc)));
      nextGoal := nextGoal + 1;
    }

    /** GET /api/goals: all of the caller's goals, unsorted and uncapped. */
    method ListGoals(user: Claims) returns (resp: Response)
      requires Valid()
      ensures resp.status == 200 && resp.body.Records?
      ensures AllOwned(resp.body.recs, goals, "userId", user.userId)
    {
      MatchingAllOwned(goals, "userId", user.userId, nextGoal);
      resp := Response(200, Records(Matching(goals, "userId", user.userId, nextGoal)));
    }

    /** PUT /api/goals/:id: the filter matches id and owner together, so a
        missing goal and another user's goal both answer 404 'Goal not
        found'; an update that does not cast fails first, with 500. */
    method UpdateGoal(user: Claims, id: nat, body: Doc, now: int) returns (resp: Response)
      requires Valid()
      modifies this`goals
      ensures Valid()
      ensures !Castable(GoalModel, body) ==>
                goals == old(goals) && resp == Response(500, ServerError(CastFailed))
      ensures Castable(GoalModel, body) && !(id in old(goals) && RefIn(old(goals)[id], "userId") == Some(user.userId)) ==>
                goals == old(goals) && resp == Response(404, Message("Goal not found"))
      ensures Castable(GoalModel, body) && id in old(goals) && RefIn(old(goals)[id], "userId") == Some(user.userId) ==>
                var doc := Touch(GoalModel, old(goals)[id], body, now);
                && goals == old(goals)[id := doc]
                && resp == Response(200, Record(Saved(id, doc)))
    {
      if !Castable(GoalModel, body) {
        return Response(500, ServerError(CastFailed));
      }
      if !(id in goals && RefIn(goals[id], "userId") == Some(user.userId)) {
        return Response(404, Message("Goal not found"));
      }
      var doc := Touch(GoalModel, goals[id], body, now);
      ModelFacts();
      TouchCastable(GoalModel, goals[id], body, now);
      AllCastPut(goals, GoalModel, nextGoal, id, doc);
      goals := goals[id := doc];
      resp := Response(200, Record(Saved(id, doc)));
    }

    /** POST /api/nutrition: the entry `PlanUpsert` picks or starts, with
        every body field copied onto it, is saved when it validates (200);
        otherwise nothing changes and the answer is 500. */
    method UpsertNutrition(user: Claims, body: Doc, midnight: int, now: int) returns (resp: Response)
      requires Valid()
      modifies this`nutrition, this`nextEntry
      ensures Valid()
      ensures var plan := PlanUpsert(old(nutrition), old(nextEntry), user.userId, body, midnight, now);
              if Validates(NutritionModel, plan.doc) then
                && nutrition == old(nutrition)[plan.id := plan.doc]
                && nextEntry == (if plan.isNew then old(nextEntry) + 1 else old(nextEntry))
                && resp == Response(200, Record(Saved(plan.id, plan.doc)))
              else
                && nutrition == old(nutrition) && nextEntry == old(nextEntry)
                && resp == Response(500, ServerError(ValidationFailed))
    {
      var plan := PlanUpsert(nutrition, nextEntry, user.userId, body, midnight, now);
      PlanDated(nutrition, nextEntry, user.userId, body, midnight, now);
      resp := SaveEntry(plan);
    }

    /** `entry.save()` on the entry an upsert picked: a valid entry is written
        under its id (a new one takes the next id) and sent with 200; an
        invalid one is refused with 500. */
    method SaveEntry(plan: Upsert) returns (resp: Response)
      requires Valid() && "date" in plan.doc
      requires if plan.isNew then plan.id == nextEntry else plan.id < nextEntry
      modifies this`nutrition, this`nextEntry
      ensures Valid()
      ensures if Validates(NutritionModel, plan.doc) then
                && nutrition == old(nutrition)[plan.id := plan.doc]
                && nextEntry == (if plan.isNew then old(nextEntry) + 1 else old(nextEntry))
                && resp == Response(200, Record(Saved(plan.id, plan.doc)))
              else
                && nutrition == old(nutrition) && nextEntry == old(nextEntry)
                && resp == Response(500, ServerError(ValidationFailed))
    {
      if !Validates(NutritionModel, plan.doc) {
        return Response(500, ServerError(ValidationFailed));
      }
      ModelFacts();
      Dated(NutritionModel, plan.doc);
      if plan.isNew {
        StockedAdd(nutrition, NutritionModel, nextEntry, plan.id, plan.doc);
        nextEntry := nextEntry + 1;
      } else {
        StockedPut(nutrition, NutritionModel, nextEntry, plan.id, plan.doc);
      }
      nutrition := nutrition[plan.id := plan.doc];
      resp := Response(200, Record(Saved(plan.id, plan.doc)));
    }

    /** GET /api/nutrition: the caller's 30 newest entries, newest first. */
    method ListNutrition(user: Claims) returns (resp: Response)
      requires Valid()
      ensures resp.status == 200 && resp.body.Records?
      ensures NewestPage(resp.body.recs, nutrition, "userId", user.userId, 30)
    {
      NewestPageHolds(nutrition, "userId", user.userId, nextEntry, 30);
      resp := Response(200, Records(Limit(NewestFirst(Matching(nutrition, "userId", user.userId, nextEntry)), 30)));
    }
  }

  /** Where a nutrition upsert writes, and what. */
  datatype Upsert = Upsert(id: nat, isNew: bool, doc: Doc)

  /** The caller's first entry of the day, or a new one under the next id
      dated midnight, with every field of the body copied onto it. */
  function PlanUpsert(records: map<nat, Doc>, bound: nat, owner: nat, body: Doc, midnight: int, now: int): (r: Upsert)
    ensures r.isNew <==> FirstOfDay(records, owner, midnight, bound).None?
    ensures r.isNew ==> r.id == bound
    ensures !r.isNew ==> r.id == FirstOfDay(records, owner, midnight, bound).value && r.id in records
  {
    match FirstOfDay(records, owner, midnight, bound)
    case Some(id) => Upsert(id, false, Assign(records[id], body))
    case None => Upsert(bound, true, Assign(NewDay(owner, midnight, now), body))
  }

  /** The written entry keeps a date when every stored entry has one. */
  lemma PlanDated(records: map<nat, Doc>, bound: nat, owner: nat, body: Doc, midnight: int, now: int)
    requires forall id | id in records :: DateIn(records[id], "date").Some?
    ensures "date" in PlanUpsert(records, bound, owner, body, midnight, now).doc
  {
  }

  /** An upsert whose body leaves owner and date alone keeps the caller's
      entries of the day to one: it rewrites the first or starts the only one. */
  lemma OneEntryPerDay(records: map<nat, Doc>, bound: nat, owner: nat, body: Doc, midnight: int, now: int)
    requires forall id | id in records :: id < bound
    requires "userId" !in body && "date" !in body
    ensures var plan := PlanUpsert(records, bound, owner, body, midnight, now);
            DayEntries(records[plan.id := plan.doc], owner, midnight) ==
              if DayEntries(records, owner, midnight) == {} then {bound} else DayEntries(records, owner, midnight)
  {
    var plan := PlanUpsert(records, bound, owner, body, midnight, now);
    var base := if plan.isNew then NewDay(owner, midnight, now) else records[plan.id];
    assert RefIn(plan.doc, "userId") == RefIn(base, "userId") && DateIn(plan.doc, "date") == DateIn(base, "date");
  }

  /** A `userId` in the body is copied like any other field: the saved
      entry belongs to whoever the body names. */
  lemma UpsertCopiesOwner(records: map<nat, Doc>, bound: nat, owner: nat, body: Doc, midnight: int, now: int)
    requires "userId" in body
    ensures RefIn(PlanUpsert(records, bound, owner, body, midnight, now).doc, "userId") == RefIn(body, "userId")
  {
  }

  // ------------------------------------------------------------ chat

  const DietAdvice: string := "Focus on whole foods: lean proteins, vegetables, fruits, and whole grains. Limit processed foods and stay hydrated."
  const ExerciseAdvice: string := "Aim for 150 minutes of moderate exercise per week. Include both cardio and strength training for best results."
  const WeightAdvice: string := "Sustainable weight loss requires a calorie deficit through diet and exercise. Aim for 1-2 pounds per week."
  const Greeting: string := "I'm here to help with your fitness journey! Feel free to ask about diet, exercise, or health tips."

  /** `generateAIResponse`: diet advice when the message mentions diet or
      food, whatever else it says; exercise advice when it mentions exercise
      or a workout but no diet; weight advice when it mentions only weight;
      otherwise the greeting. */
  function GenerateAIResponse(message: string): (r: string)
    ensures r == DietAdvice <==> Mentions(message, "diet") || Mentions(message, "food")
    ensures r == ExerciseAdvice <==>
              !(Mentions(message, "diet") || Mentions(message, "food"))
              && (Mentions(message, "exercise") || Mentions(message, "workout"))
    ensures r == WeightAdvice <==>
              !(Mentions(message, "diet") || Mentions(message, "food"))
              && !(Mentions(message, "exercise") || Mentions(message, "workout"))
              && Mentions(message, "weight")
    ensures r == Greeting <==>
              !(Mentions(message, "diet") || Mentions(message, "food") || Mentions(message, "exercise")
                || Mentions(message, "workout") || Mentions(message, "weight"))
  {
    var lower := Lower(message);
    if Contains(lower, "diet") || Contains(lower, "food") then DietAdvice
    else if Contains(lower, "exercise") || Contains(lower, "workout") then ExerciseAdvice
    else if Contains(lower, "weight") then WeightAdvice
    else Greeting
  }

  /** The reply does not depend on the case of the message. */
  lemma {:induction false} AdviceIgnoresCase(message: string)
    ensures GenerateAIResponse(Lower(message)) == GenerateAIResponse(message)
  {
    LowerIdempotent(message);
  }

  /** POST /api/chat: a string `message` is answered with 200 and the advice
      for it; anything else makes `toLowerCase` throw a TypeError, answered
      with 500. */
  function ChatReply(body: Doc): (r: Response)
    ensures r.status == 200 <==> "message" in body && body["message"].Str?
    ensures r.status == 200 ==> r.body == Reply(GenerateAIResponse(body["message"].s))
    ensures r.status != 200 ==> r == Response(500, ServerError(TypeFailed))
    ensures r.status == 200 ==> r.body.response in {DietAdvice, ExerciseAdvice, WeightAdvice, Greeting}
  {
    if "message" in body && body["message"].Str? then Response(200, Reply(GenerateAIResponse(body["message"].s)))
    else Response(500, ServerError(TypeFailed))
  }

  // ------------------------------------------------------------ routing

  datatype Verb = Get | Head | Post | Put | Delete | Patch | Options

  /** The handlers, named after the route that reaches each. */
  datatype Endpoint =
    | PostRegister | PostLogin
    | PostActivity | GetActivities
    | PostGoal | GetGoals | PutGoal(id: string)
    | PostNutrition | GetNutrition
    | PostChat
    | StaticFile | GetHealth
    | NoRoute

  /** Express's match of a fixed route path: ASCII case is ignored and one
      trailing '/' is allowed. */
  predicate Names(route: string, path: string) {
    Lower(path) == Lower(route) || Lower(path) == Lower(route) + "/"
  }

  /** The length of '/api/goals/'. */
  const GoalsSlash: nat := 11

  /** The `:id` of '/api/goals/:id': one non-empty segment after the
      prefix, optionally followed by a '/'. */
  function GoalParam(path: string): (r: Option<string>)
    ensures r.Some? ==> r.value != [] && '/' !in r.value
    ensures r.Some? ==> |path| > GoalsSlash && Lower(path[..GoalsSlash]) == "/api/goals/"
    ensures r.Some? ==> path[GoalsSlash..] == r.value || path[GoalsSlash..] == r.value + "/"
  {
    if |path| <= GoalsSlash || Lower(path[..GoalsSlash]) != "/api/goals/" then None
    else
      var rest := path[GoalsSlash..];
      var seg := if rest[|rest| - 1] == '/' then rest[..|rest| - 1] else rest;
      if seg == [] || '/' in seg then None else Some(seg)
  }

  /** Every id segment, with or without a trailing '/', is read back whole. */
  lemma GoalParamRoundTrip(id: string, tail: string)
    requires id != [] && '/' !in id && (tail == "" || tail == "/")
    ensures GoalParam("/api/goals/" + id + tail) == Some(id)
  {
    var path := "/api/goals/" + id + tail;
    assert path[..GoalsSlash] == "/api/goals/";
    assert path[GoalsSlash..] == id + tail;
    if tail == "/" {
      assert (id + tail)[..|id + tail| - 1] == id;
    } else {
      assert id + tail == id;
      assert id[|id| - 1] in id;
    }
  }

  /** The handler a request reaches: the API routes in the order they are
      registered, then `express.static('.')` for GET and HEAD requests naming
      an existing file, then the health check; a request nothing serves falls
      through to the 404 handler. A GET route also serves HEAD. */
  function RouteOf(verb: Verb, path: string, isFile: string -> bool): (e: Endpoint)
    ensures e == StaticFile ==> (verb == Get || verb == Head) && isFile(path)
    ensures e == GetHealth ==> (verb == Get || verb == Head) && !isFile(path) && Names("/api/health", path)
    ensures e.PutGoal? ==> verb == Put && GoalParam(path) == Some(e.id)
    ensures (verb == Get || verb == Head) && isFile(path) ==> e in {GetActivities, GetGoals, GetNutrition, StaticFile}
    ensures verb !in {Get, Head, Post, Put} ==> e == NoRoute
  {
    var reading := verb == Get || verb == Head;
    if verb == Post && Names("/api/auth/register", path) then PostRegister
    else if verb == Post && Names("/api/auth/login", path) then PostLogin
    else if verb == Post && Names("/api/activities", path) then PostActivity
    else if reading && Names("/api/activities", path) then GetActivities
    else if verb == Post && Names("/api/goals", path) then PostGoal
    else if reading && Names("/api/goals", path) then GetGoals
    else if verb == Put && GoalParam(path).Some? then PutGoal(GoalParam(path).value)
    else if verb == Post && Names("/api/nutrition", path) then PostNutrition
    else if reading && Names("/api/nutrition", path) then GetNutrition
    else if verb == Post && Names("/api/chat", path) then PostChat
    else if reading && isFile(path) then StaticFile
    else if reading && Names("/api/health", path) then GetHealth
    else NoRoute
  }

  /** A file on disk at '/api/health' is served in place of the health check. */
  lemma HealthShadowed(verb: Verb, isFile: string -> bool)
    requires verb in {Get, Head} && isFile("/api/health")
    ensures RouteOf(verb, "/api/health", isFile) == StaticFile
  {
    assert Lower("/api/health")[5] == 'h' && (Lower("/api/goals") + "/")[5] == 'g';
  }

  /** The handlers behind `authenticateToken`: every one but register,
      login, the static files, the health check and the 404 handler. */
  predicate Gated(e: Endpoint) {
    !(e in {PostRegister, PostLogin, StaticFile, GetHealth, NoRoute})
  }

  /** What happens to a request before a handler's own logic: an answer
      already given, or the handler to run with the identity the gate
      decoded (none for an ungated handler). */
  datatype Step = Answer(resp: Response) | Serve(endpoint: Endpoint, user: Option<Claims>)

  const NotFoundReply: Response := Response(404, Message("Route not found"))
  const BrokenReply: Response := Response(500, Message("Something went wrong!"))
  const PreflightReply: Response := Response(204, NoContent)

  /** A request through the whole middleware stack. `cors`, which runs
      before the body is read, ends every OPTIONS request with 204 and no
      body. A body `express.json` cannot parse is an error the error
      handler answers with 500; a request
      no handler serves gets the 404 reply; a gated handler runs only with
      the claims `authenticateToken` admitted, and otherwise the gate's
      refusal is the answer. */
  function Route(verb: Verb, path: string, bodyParses: bool, header: Option<string>,
                 verify: string -> Option<Claims>, isFile: string -> bool): (s: Step)
    ensures verb == Options ==> s == Answer(PreflightReply)
    ensures verb != Options && !bodyParses ==> s == Answer(BrokenReply)
    ensures verb != Options && bodyParses && RouteOf(verb, path, isFile) == NoRoute ==> s == Answer(NotFoundReply)
    ensures s.Serve? ==> verb != Options && bodyParses && s.endpoint == RouteOf(verb, path, isFile) && s.endpoint != NoRoute
    ensures s.Serve? && Gated(s.endpoint) ==> s.user.Some? && Authenticate(header, verify) == Admit(s.user.value)
    ensures s.Serve? && !Gated(s.endpoint) ==> s.user.None?
    ensures verb != Options && bodyParses && Gated(RouteOf(verb, path, isFile)) && Authenticate(header, verify).Refuse? ==>
              s == Answer(Authenticate(header, verify).resp)
  {
    if verb == Options then Answer(PreflightReply)
    else if !bodyParses then Answer(BrokenReply)
    else
      var e := RouteOf(verb, path, isFile);
      if e == NoRoute then Answer(NotFoundReply)
      else if !Gated(e) then Serve(e, None)
      else
        match Authenticate(header, verify)
        case Refuse(resp) => Answer(resp)
        case Admit(claims) => Serve(e, Some(claims))
  }

  /** A request without a token reaches no handler of user data: only
      register, login, the static files and the health check run. */
  lemma NoTokenNoData(verb: Verb, path: string, bodyParses: bool, header: Option<string>,
                      verify: string -> Option<Claims>, isFile: string -> bool)
    requires TokenOf(header).None?
    ensures var s := Route(verb, path, bodyParses, header, verify, isFile);
            s.Serve? ==> s.endpoint in {PostRegister, PostLogin, StaticFile, GetHealth}
  {
  }

  /** GET /api/health: status 'OK' and the time of the request. */
  function HealthReply(now: int): Response {
    Response(200, Status("OK", now))
  }
}

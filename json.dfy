/** JSON documents as the Express handlers and Mongoose see them: a document
    is a map from field names to values, and a handler's answer is an HTTP
    status with a JSON body. */
module Json {

  datatype Option<+T> = None | Some(value: T)

  /** A field value. Numbers are integers here (see README, "Left out");
      `Ref` is an ObjectId that names a user, `Date` a time in milliseconds. */
  datatype Value =
    | Str(s: string)
    | Num(n: int)
    | Ref(id: nat)
    | Date(ms: int)
    | Obj(fields: map<string, Value>)
    | List(items: seq<Value>)

  type Doc = map<string, Value>

  /** A stored document as it is sent back: its `_id` and its fields. */
  datatype Saved = Saved(id: nat, doc: Doc)

  /** `Object.assign(base, patch)`, `{...base, ...patch}` and the `$set` of an
      update: every field of `patch` replaces or joins those of `base`. */
  function Assign(base: Doc, patch: Doc): (r: Doc)
    ensures r.Keys == base.Keys + patch.Keys
    ensures forall f | f in patch :: r[f] == patch[f]
    ensures forall f | f in base && f !in patch :: r[f] == base[f]
  {
    base + patch
  }

  /** The user an ObjectId-valued field names, if the field holds one. */
  function RefIn(doc: Doc, field: string): Option<nat> {
    if field in doc && doc[field].Ref? then Some(doc[field].id) else None
  }

  /** The time a date-valued field holds, if it holds one. */
  function DateIn(doc: Doc, field: string): Option<int> {
    if field in doc && doc[field].Date? then Some(doc[field].ms) else None
  }

  /** The stored documents with an id below `bound`, in id order, whose
      `field` names `owner`: what `Model.find({ field: owner })` returns. */
  function Matching(records: map<nat, Doc>, field: string, owner: nat, bound: nat): (r: seq<Saved>)
    ensures forall k | 0 <= k < |r| :: r[k].id < bound && r[k].id in records
                                        && r[k].doc == records[r[k].id] && RefIn(r[k].doc, field) == Some(owner)
    ensures forall k, m | 0 <= k < m < |r| :: r[k].id < r[m].id
  {
    if bound == 0 then []
    else
      var earlier := Matching(records, field, owner, bound - 1);
      var id := bound - 1;
      if id in records && RefIn(records[id], field) == Some(owner) then earlier + [Saved(id, records[id])]
      else earlier
  }

  /** Every matching document below the bound is listed. */
  lemma {:induction false} MatchingComplete(records: map<nat, Doc>, field: string, owner: nat, bound: nat, id: nat)
    requires id < bound && id in records && RefIn(records[id], field) == Some(owner)
    ensures Saved(id, records[id]) in Matching(records, field, owner, bound)
  {
    if id < bound - 1 {
      MatchingComplete(records, field, owner, bound - 1, id);
    }
  }

  /** `page` lists exactly the stored documents whose `field` names
      `owner`, each once, in id order. */
  predicate AllOwned(page: seq<Saved>, records: map<nat, Doc>, field: string, owner: nat) {
    && (forall s | s in page :: s.id in records && s.doc == records[s.id] && RefIn(s.doc, field) == Some(owner))
    && (forall id | id in records && RefIn(records[id], field) == Some(owner) :: Saved(id, records[id]) in page)
    && (forall k, m | 0 <= k < m < |page| :: page[k].id < page[m].id)
  }

  /** Listing below a bound past every id lists exactly the owner's documents. */
  lemma MatchingAllOwned(records: map<nat, Doc>, field: string, owner: nat, bound: nat)
    requires forall id | id in records :: id < bound
    ensures AllOwned(Matching(records, field, owner, bound), records, field, owner)
  {
    forall id | id in records && RefIn(records[id], field) == Some(owner)
      ensures Saved(id, records[id]) in Matching(records, field, owner, bound)
    {
      MatchingComplete(records, field, owner, bound, id);
    }
  }

  /** No two stored users share an email; `emailOf` reads a user's email. */
  predicate UniqueEmails<T>(users: map<nat, T>, emailOf: T -> string) {
    forall a, b | a in users && b in users && a != b :: emailOf(users[a]) != emailOf(users[b])
  }

  /** `User.findOne({ email })`: the first user below `bound` with that email. */
  function FindByEmail<T>(users: map<nat, T>, emailOf: T -> string, email: string, bound: nat): (r: Option<nat>)
    ensures r.Some? ==> r.value < bound && r.value in users && emailOf(users[r.value]) == email
    ensures r.None? ==> forall id | id < bound && id in users :: emailOf(users[id]) != email
  {
    if bound == 0 then None
    else
      var first := FindByEmail(users, emailOf, email, bound - 1);
      if first.Some? then first
      else if bound - 1 in users && emailOf(users[bound - 1]) == email then Some(bound - 1)
      else None
  }

  /** With unique emails, looking a user's email up finds that user. */
  lemma FindsUnique<T>(users: map<nat, T>, emailOf: T -> string, id: nat, bound: nat)
    requires UniqueEmails(users, emailOf) && id in users && id < bound
    ensures FindByEmail(users, emailOf, emailOf(users[id]), bound) == Some(id)
  {
  }

  /** A user stored under a fresh id with an email no one has is the one
      found for that email afterwards, and emails stay unique. */
  lemma FindsAdded<T>(users: map<nat, T>, emailOf: T -> string, next: nat, u: T)
    requires forall id | id in users :: id < next
    requires FindByEmail(users, emailOf, emailOf(u), next).None?
    ensures FindByEmail(users[next := u], emailOf, emailOf(u), next + 1) == Some(next)
    ensures UniqueEmails(users, emailOf) ==> UniqueEmails(users[next := u], emailOf)
  {
    assert FindByEmail(users[next := u], emailOf, emailOf(u), next).None?;
  }

  /** What a thrown error reports in `error.message`: Mongoose's validation
      and cast errors and JavaScript's TypeError, whose wording is the
      library's or the engine's own, or another error. */
  datatype Failure = ValidationFailed | CastFailed | TypeFailed | Thrown(text: string)

  /** The awaited library calls a handler can make: `User.findOne`,
      `bcrypt.hash`, `User.create`, `save`, the password comparison and
      `jwt.sign`. */
  datatype Stage = Lookup | Hash | Create | Save | Compare | Sign

  /** The call that throws if the request reaches it, and its message. */
  datatype Fault = NoFault | FaultAt(stage: Stage, message: string)
  {
    predicate Throws(at: Stage) {
      FaultAt? && stage == at
    }
  }

  /** The JSON bodies the handlers send. */
  datatype Body =
    | Message(text: string)                  // { message }
    | ErrorMessage(failure: Failure)         // { message: error.message }
    | ServerError(failure: Failure)          // { message: 'Server error', error: error.message }
    | Record(rec: Saved)                     // one document
    | Records(recs: seq<Saved>)              // an array of documents
    | Null                                   // res.json(null)
    | Reply(response: string)                // { response } of the chat route
    | Session(id: nat, name: string, email: string, token: string)
                                             // { _id, name, email, token }
    | Welcome(message: string, token: string, id: nat, name: string, email: string)
                                             // { message, token, user: { id, name, email } }
    | Profile(id: nat, name: string, email: string)
                                             // a user document without its password
    | Status(status: string, timestamp: int) // { status, timestamp } of the health check
    | NoContent                              // an empty body, as `cors` ends a preflight

  datatype Response = Response(status: int, body: Body)
}

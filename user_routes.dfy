/** The user router of the route-per-resource backend: register, login and
    profile. The user model itself is not part of this model: how it stores
    the password is the function `hash`, how `matchPassword` compares is the
    function `matches`, and `jwt.sign` is the function `sign`; which of these
    calls throws, if any, is the parameter `fault`. */
module UserRoutes {
  import opened Json

  datatype Account = Account(name: string, email: string, password: string)

  /** What `jwt.sign` is asked to sign: the payload `{ id }` and the lifetime. */
  datatype TokenRequest = TokenRequest(id: nat, expiresInSeconds: nat)

  /** `expiresIn: '30d'`. */
  const ThirtyDays: nat := 30 * 24 * 60 * 60

  /** An account's email, the key `User.findOne({ email })` looks up. */
  function AccountEmail(a: Account): string {
    a.email
  }

  /** The answer to a successful register or login. */
  function SessionFor(id: nat, a: Account, sign: TokenRequest -> string): Body {
    Session(id, a.name, a.email, sign(TokenRequest(id, ThirtyDays)))
  }

  class UserStore {
    var users: map<nat, Account>
    var nextId: nat

    ghost predicate Valid()
      reads this
    {
      (forall id | id in users :: id < nextId) && UniqueEmails(users, AccountEmail)
    }

    constructor ()
      ensures Valid() && users == map[] && nextId == 0
    {
      users := map[];
      nextId := 0;
    }

    /** POST /register: a throwing `findOne` answers 400 with its message
        and creates nothing; an email already registered answers 400 'User
        already exists'; a throwing `create` answers 400 with its message and
        creates nothing; otherwise one account is added, and 201 carries its
        id, name, email and a 30-day token for `{ id }`, unless `jwt.sign`
        throws, which answers 400 with its message and keeps the account. */
    method Register(name: string, email: string, password: string,
                    hash: string -> string, sign: TokenRequest -> string,
                    fault: Fault) returns (resp: Response)
      requires Valid()
      modifies this
      ensures Valid()
      ensures fault.Throws(Lookup) ==>
                users == old(users) && nextId == old(nextId)
                && resp == Response(400, ErrorMessage(Thrown(fault.message)))
      ensures !fault.Throws(Lookup) && FindByEmail(old(users), AccountEmail, email, old(nextId)).Some? ==>
                users == old(users) && nextId == old(nextId)
                && resp == Response(400, Message("User already exists"))
      ensures !fault.Throws(Lookup) && FindByEmail(old(users), AccountEmail, email, old(nextId)).None?
              && fault.Throws(Create) ==>
                users == old(users) && nextId == old(nextId)
                && resp == Response(400, ErrorMessage(Thrown(fault.message)))
      ensures !fault.Throws(Lookup) && FindByEmail(old(users), AccountEmail, email, old(nextId)).None?
              && !fault.Throws(Create) ==>
                var a := Account(name, email, hash(password));
                && users == old(users)[old(nextId) := a] && nextId == old(nextId) + 1
                && FindByEmail(users, AccountEmail, email, nextId) == Some(old(nextId))
                && resp == (if fault.Throws(Sign) then Response(400, ErrorMessage(Thrown(fault.message)))
                            else Response(201, SessionFor(old(nextId), a, sign)))
    {
      if fault.Throws(Lookup) {
        return Response(400, ErrorMessage(Thrown(fault.message)));
      }
      if FindByEmail(users, AccountEmail, email, nextId).Some? {
        return Response(400, Message("User already exists"));
      }
      if fault.Throws(Create) {
        return Response(400, ErrorMessage(Thrown(fault.message)));
      }
      var a := Account(name, email, hash(password));
      FindsAdded(users, AccountEmail, nextId, a);
      users := users[nextId := a];
      if fault.Throws(Sign) {
        resp := Response(400, ErrorMessage(Thrown(fault.message)));
      } else {
        resp := Response(201, SessionFor(nextId, a, sign));
      }
      nextId := nextId + 1;
    }

    /** POST /login: an unknown email and a wrong password give the same
        401 'Invalid email or password'; a match gives the account's id,
        name, email and a 30-day token. A library call that throws on the
        way answers 400 with its message. Nothing changes. */
    method Login(email: string, password: string,
                 matches: (string, string) -> bool, sign: TokenRequest -> string,
                 fault: Fault) returns (resp: Response)
      requires Valid()
      ensures var found := FindByEmail(users, AccountEmail, email, nextId);
              if fault.Throws(Lookup) then
                resp == Response(400, ErrorMessage(Thrown(fault.message)))
              else if found.None? then
                resp == Response(401, Message("Invalid email or password"))
              else if fault.Throws(Compare) then
                resp == Response(400, ErrorMessage(Thrown(fault.message)))
              else if !matches(password, users[found.value].password) then
                resp == Response(401, Message("Invalid email or password"))
              else if fault.Throws(Sign) then
                resp == Response(400, ErrorMessage(Thrown(fault.message)))
              else
                resp == Response(200, SessionFor(found.value, users[found.value], sign))
      ensures resp.status == 200 ==> exists id | id in users :: users[id].email == email
      ensures resp.status == 401 <==>
                !fault.Throws(Lookup)
                && (FindByEmail(users, AccountEmail, email, nextId).None?
                    || (!fault.Throws(Compare)
                        && !matches(password, users[FindByEmail(users, AccountEmail, email, nextId).value].password)))
    {
      if fault.Throws(Lookup) {
        return Response(400, ErrorMessage(Thrown(fault.message)));
      }
      var found := FindByEmail(users, AccountEmail, email, nextId);
      if found.None? {
        return Response(401, Message("Invalid email or password"));
      }
      if fault.Throws(Compare) {
        return Response(400, ErrorMessage(Thrown(fault.message)));
      }
      if !matches(password, users[found.value].password) {
        return Response(401, Message("Invalid email or password"));
      }
      if fault.Throws(Sign) {
        return Response(400, ErrorMessage(Thrown(fault.message)));
      }
      resp := Response(200, SessionFor(found.value, users[found.value], sign));
    }

    /** GET /profile: the caller's account without its password. A request
        that carries no identity throws on `req.user._id` and answers 404
        'User not found'; an id with no account answers `null`. */
    method GetProfile(identity: Option<nat>) returns (resp: Response)
      requires Valid()
      ensures identity.None? ==> resp == Response(404, Message("User not found"))
      ensures identity.Some? && identity.value in users ==>
                resp == Response(200, Body.Profile(identity.value, users[identity.value].name,
                                              users[identity.value].email))
      ensures identity.Some? && identity.value !in users ==> resp == Response(200, Null)
    {
      if identity.None? {
        return Response(404, Message("User not found"));
      }
      var id := identity.value;
      if id in users {
        resp := Response(200, Body.Profile(id, users[id].name, users[id].email));
      } else {
        resp := Response(200, Null);
      }
    }
  }
}

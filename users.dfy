/** The user table rules of server/controllers/users.js: registration with a
    duplicate-email check, the login decision, the authorised and
    whitelisted edit, and deletion. The table is kept in insertion order,
    and a `findOne` is taken to scan it in that order (the database does
    not promise an order without a sort). Password hashing, the password
    comparison and token signing are parameters or plain data. */
module Users {
  import opened Common

  datatype Role = Tenant | Admin

  datatype User = User(
    id: ObjectId,
    name: string,
    email: string,
    phone: string,
    password: string,
    role: Role,
    idScan: Option<string>)

  /** A user as the handlers answer with it, after `.select("-password")`. */
  datatype Profile = Profile(id: ObjectId, name: string, email: string, phone: string, role: Role, idScan: Option<string>)

  function ProfileOf(u: User): (p: Profile) {
    Profile(u.id, u.name, u.email, u.phone, u.role, u.idScan)
  }

  /** The signed-in caller as the auth middleware decodes it (`req.user`). */
  datatype Caller = Caller(id: ObjectId, role: Role)

  /** The claims `jwt.sign` signs; the signature and the expiry are not modelled. */
  datatype Claims = Claims(id: ObjectId, role: Role)

  /** The body of a successful login: the token's claims and the user summary. */
  datatype Session = Session(claims: Claims, id: ObjectId, name: string, email: string, role: Role)

  /** `User.findOne({ email })`: the position of the first user with that email. */
  function EmailIndex(users: seq<User>, email: string): (r: Option<nat>)
    ensures r.None? <==> forall i :: 0 <= i < |users| ==> users[i].email != email
    ensures r.Some? ==> r.value < |users| && users[r.value].email == email
    ensures r.Some? ==> forall j :: 0 <= j < r.value ==> users[j].email != email
  {
    FirstIndex(users, (u: User) => u.email == email)
  }

  /** `User.findById(id)`: the position of the user with that id, the only
      one when ids are distinct. */
  function IdIndex(users: seq<User>, id: ObjectId): (r: Option<nat>)
    ensures r.None? <==> forall i :: 0 <= i < |users| ==> users[i].id != id
    ensures r.Some? ==> r.value < |users| && users[r.value].id == id
    ensures r.Some? && DistinctIds(users) ==> forall j :: 0 <= j < |users| && users[j].id == id ==> j == r.value
  {
    FirstIndex(users, (u: User) => u.id == id)
  }

  /** `POST /login`. `matches(password, hash)` stands for `bcrypt.compare`.
      An unknown email is 404, a failed comparison 400, and only a passed
      comparison issues a token, for the first user with that email. */
  function Login(users: seq<User>, email: string, password: string, matches: (string, string) -> bool): (r: Result<Session>)
    ensures EmailIndex(users, email).None? ==> r == Err(NotFound)
    ensures EmailIndex(users, email).Some? ==>
      var u := users[EmailIndex(users, email).value];
      && (r.Ok? <==> matches(password, u.password))
      && (r.Err? ==> r.failure == BadRequest)
      && (r.Ok? ==> r.value.claims == Claims(u.id, u.role) && r.value.id == u.id && r.value.email == email)
      && (r.Ok? ==> r.value.name == u.name && r.value.role == u.role)
  {
    match EmailIndex(users, email)
    case None => Err(NotFound)
    case Some(i) =>
      var u := users[i];
      if !matches(password, u.password) then Err(BadRequest)
      else Ok(Session(Claims(u.id, u.role), u.id, u.name, u.email, u.role))
  }

  /** The authorisation test of `/edit/:id`: an admin, or the user themselves. */
  function MayEdit(caller: Caller, id: ObjectId): (ok: bool)
    ensures caller.role == Admin ==> ok
    ensures caller.role == Tenant ==> (ok <==> caller.id == id)
  {
    caller.role == Admin || caller.id == id
  }

  /** The fields `/edit/:id` lets a request change. */
  const AllowedFields: seq<string> := ["name", "email", "phone", "idScan"]

  /** The update object: each allowed field the body defines, with its
      value, and nothing else; in particular never `password` or `role`. */
  function Whitelist(body: map<string, string>): (r: map<string, string>)
    ensures forall f :: f in r ==> f in AllowedFields && f in body && r[f] == body[f]
    ensures forall f :: f in AllowedFields && f in body ==> f in r
    ensures "password" !in r && "role" !in r
  {
    map f | f in body && f in AllowedFields :: body[f]
  }

  /** The `forEach` over the allowed fields that builds `updates`. */
  method CollectUpdates(body: map<string, string>) returns (updates: map<string, string>)
    ensures forall f :: f in updates ==> f in AllowedFields
    ensures forall f :: f in AllowedFields ==> (f in updates <==> f in body)
    ensures forall f :: f in updates ==> f in body && updates[f] == body[f]
    ensures updates == Whitelist(body)
  {
    updates := map[];
    for i := 0 to |AllowedFields|
      invariant forall f :: f in updates <==> f in AllowedFields[..i] && f in body
      invariant forall f :: f in updates ==> updates[f] == body[f]
    {
      var field := AllowedFields[i];
      if field in body {
        updates := updates[field := body[field]];
      }
    }
    assert AllowedFields[..|AllowedFields|] == AllowedFields;
  }

  /** The role a `role` string stores; any other string is not representable
      and leaves the role as it was. */
  function RoleNamed(s: string, current: Role): (r: Role) {
    if s == "admin" then Admin else if s == "tenant" then Tenant else current
  }

  /** `findByIdAndUpdate(id, updates)`: every user field named in `updates`
      takes its value, credentials and role included; a field not named
      keeps its value; the id never changes. */
  function ApplyUpdates(u: User, updates: map<string, string>): (r: User)
    ensures r.id == u.id
    ensures "name" in updates ==> r.name == updates["name"]
    ensures "email" in updates ==> r.email == updates["email"]
    ensures "phone" in updates ==> r.phone == updates["phone"]
    ensures "password" in updates ==> r.password == updates["password"]
    ensures "idScan" in updates ==> r.idScan == Some(updates["idScan"])
    ensures "role" in updates ==>
      r.role == (if updates["role"] == "admin" then Admin else if updates["role"] == "tenant" then Tenant else u.role)
    ensures "name" !in updates ==> r.name == u.name
    ensures "email" !in updates ==> r.email == u.email
    ensures "phone" !in updates ==> r.phone == u.phone
    ensures "password" !in updates ==> r.password == u.password
    ensures "idScan" !in updates ==> r.idScan == u.idScan
    ensures "role" !in updates ==> r.role == u.role
  {
    u.(name := if "name" in updates then updates["name"] else u.name,
       email := if "email" in updates then updates["email"] else u.email,
       phone := if "phone" in updates then updates["phone"] else u.phone,
       password := if "password" in updates then updates["password"] else u.password,
       role := if "role" in updates then RoleNamed(updates["role"], u.role) else u.role,
       idScan := if "idScan" in updates then Some(updates["idScan"]) else u.idScan)
  }

  /** What an authorised edit does to a user: a whitelisted field changes
      exactly when the body defines it, to the body's value; every other
      field, credentials and role included, keeps its value. */
  lemma EditedUser(u: User, body: map<string, string>)
    ensures var r := ApplyUpdates(u, Whitelist(body));
      && r.id == u.id && r.password == u.password && r.role == u.role
      && r.name == (if "name" in body then body["name"] else u.name)
      && r.email == (if "email" in body then body["email"] else u.email)
      && r.phone == (if "phone" in body then body["phone"] else u.phone)
      && r.idScan == (if "idScan" in body then Some(body["idScan"]) else u.idScan)
  {
  }

  /** No two users share an id. */
  predicate DistinctIds(users: seq<User>) {
    forall i, j :: 0 <= i < j < |users| ==> users[i].id != users[j].id
  }

  /** Removing the user at position `i` removes exactly the users with its id. */
  lemma RemoveAtMembers(users: seq<User>, i: nat)
    requires i < |users| && DistinctIds(users)
    ensures DistinctIds(users[..i] + users[i + 1..])
    ensures forall u :: u in users[..i] + users[i + 1..] <==> u in users && u.id != users[i].id
  {
  }

  class UserStore {
    var users: seq<User>
    var nextId: ObjectId

    ghost predicate Valid()
      reads this
    {
      && DistinctIds(users)
      && (forall i :: 0 <= i < |users| ==> users[i].id < nextId)
    }

    constructor ()
      ensures Valid() && users == []
    {
      users := [];
      nextId := 0;
    }

    /** `POST /register`. An email already present is 400 and adds nobody;
        otherwise exactly one user is appended, with a fresh id, the given
        name, email and phone, the password as `hash` makes it, the default
        role and no ID scan. The reply itself is only a message; the model
        returns the new id so that the contracts can name it. */
    method Register(name: string, email: string, phone: string, password: string, hash: string -> string)
      returns (r: Result<ObjectId>)
      requires Valid()
      modifies this
      ensures Valid()
      ensures r.Err? <==> EmailIndex(old(users), email).Some?
      ensures r.Err? ==> r.failure == BadRequest && users == old(users)
      ensures r.Ok? ==> users == old(users) + [User(r.value, name, email, phone, hash(password), Tenant, None)]
      ensures r.Ok? ==> forall i :: 0 <= i < |old(users)| ==> old(users)[i].id != r.value
    {
      if EmailIndex(users, email).Some? {
        return Err(BadRequest);
      }
      var id := nextId;
      users := users + [User(id, name, email, phone, hash(password), Tenant, None)];
      nextId := nextId + 1;
      r := Ok(id);
    }

    /** `PUT /edit/:id` by `caller`. A caller who is neither admin nor the
        user is 401 and an unknown id 404, both without a write; otherwise
        only the whitelisted fields of that one user change. */
    method Edit(caller: Caller, id: ObjectId, body: map<string, string>) returns (r: Result<Profile>)
      requires Valid()
      modifies this
      ensures Valid()
      ensures !MayEdit(caller, id) ==> r == Err(Unauthorized)
      ensures MayEdit(caller, id) && IdIndex(old(users), id).None? ==> r == Err(NotFound)
      ensures r.Ok? <==> MayEdit(caller, id) && IdIndex(old(users), id).Some?
      ensures r.Err? ==> users == old(users)
      ensures r.Ok? ==> IdIndex(old(users), id).Some?
      ensures r.Ok? ==>
        var i := IdIndex(old(users), id).value;
        && users == old(users)[i := ApplyUpdates(old(users)[i], Whitelist(body))]
        && r.value == ProfileOf(users[i])
    {
      if !MayEdit(caller, id) {
        return Err(Unauthorized);
      }
      var updates := CollectUpdates(body);
      match IdIndex(users, id)
      case None =>
        r := Err(NotFound);
      case Some(i) =>
        var updated := ApplyUpdates(users[i], updates);
        users := users[i := updated];
        r := Ok(ProfileOf(updated));
    }

    /** `DELETE /delete/:id`. An unknown id is 404; otherwise exactly that
        user is removed and the others keep their order. */
    method Delete(id: ObjectId) returns (r: Result<()>)
      requires Valid()
      modifies this
      ensures Valid()
      ensures r.Err? <==> IdIndex(old(users), id).None?
      ensures r.Err? ==> r.failure == NotFound && users == old(users)
      ensures r.Ok? ==> IdIndex(old(users), id).Some?
      ensures r.Ok? ==>
        var i := IdIndex(old(users), id).value;
        users == old(users)[..i] + old(users)[i + 1..]
      ensures forall u :: u in users <==> u in old(users) && u.id != id
    {
      match IdIndex(users, id)
      case None =>
        r := Err(NotFound);
      case Some(i) =>
        RemoveAtMembers(users, i);
        users := users[..i] + users[i + 1..];
        r := Ok(());
    }
  }
}

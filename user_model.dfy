/**
 * The server's user model (`models/User.js`): the in-memory `users` array
 * with its finders, creation, in-place update and deletion, and the JSON
 * form that leaves the password out. Ids and stamps are parameters; the
 * password is stored as given (hashing happens in the auth routes, which
 * are not part of this model).
 */
module UserModel {
  import opened Common

  datatype UserRecord = UserRecord(
    id: string,
    email: string,
    password: string,
    name: string,
    role: string,
    shopId: Option<string>,
    createdAt: string,
    updatedAt: string)

  /** The object handed to the constructor; an absent role or shop id takes its default. */
  datatype UserData = UserData(email: string, password: string, name: string, role: Option<string>, shopId: Option<string>)

  /** The `updates` of `User.update`: each field `Object.assign` copies, present or absent. */
  datatype UserUpdates = UserUpdates(
    email: Option<string>,
    password: Option<string>,
    name: Option<string>,
    role: Option<string>,
    shopId: Option<Option<string>>)

  /** What `toJSON` yields. */
  datatype PublicUser = PublicUser(
    id: string,
    email: string,
    name: string,
    role: string,
    shopId: Option<string>,
    createdAt: string,
    updatedAt: string)

  /** `new User(data)`: role `customer` and shop id `null` unless given. */
  function NewUser(data: UserData, id: string, now: string): (u: UserRecord)
    ensures u.id == id && u.email == data.email && u.password == data.password && u.name == data.name
    ensures u.role == (if data.role.Some? then data.role.value else "customer")
    ensures u.shopId == data.shopId
    ensures u.createdAt == now && u.updatedAt == now
  {
    UserRecord(id, data.email, data.password, data.name,
               if data.role.Some? then data.role.value else "customer", data.shopId, now, now)
  }

  /** `findByEmail`: the first user with the email, or `null`. */
  function FindByEmail(users: seq<UserRecord>, email: string): (r: Option<UserRecord>)
    ensures r.None? <==> forall i :: 0 <= i < |users| ==> users[i].email != email
    ensures r.Some? ==> exists i :: 0 <= i < |users| && users[i] == r.value && r.value.email == email &&
                                    forall j :: 0 <= j < i ==> users[j].email != email
  {
    FindFirst(users, (u: UserRecord) => u.email == email)
  }

  /** `findById`: the first user with the id, or `null`. */
  function FindById(users: seq<UserRecord>, id: string): (r: Option<UserRecord>)
    ensures r.None? <==> forall i :: 0 <= i < |users| ==> users[i].id != id
    ensures r.Some? ==> exists i :: 0 <= i < |users| && users[i] == r.value && r.value.id == id &&
                                    forall j :: 0 <= j < i ==> users[j].id != id
  {
    FindFirst(users, (u: UserRecord) => u.id == id)
  }

  /** The first user with a matching field is found after an append, whatever was appended. */
  lemma FindFirstSnoc(users: seq<UserRecord>, u: UserRecord, f: UserRecord -> bool)
    ensures FindFirst(users + [u], f) == (if FindFirst(users, f).Some? then FindFirst(users, f) else if f(u) then Some(u) else None)
  {
    var s := users + [u];
    var r := FindFirst(s, f);
    var q := FindFirst(users, f);
    if q.Some? {
      var i :| 0 <= i < |users| && users[i] == q.value && f(q.value) && forall j :: 0 <= j < i ==> !f(users[j]);
      assert forall j :: 0 <= j < |users| ==> s[j] == users[j];
      assert f(s[i]);
      var i' :| 0 <= i' < |s| && s[i'] == r.value && f(r.value) && forall j :: 0 <= j < i' ==> !f(s[j]);
      assert r.value == q.value;
    } else {
      assert forall j :: 0 <= j < |users| ==> s[j] == users[j];
      if f(u) {
        assert f(s[|users|]);
      }
    }
  }

  /**
   * `create` does not look for an existing email: after it, `findByEmail`
   * still answers with the earlier user, so the new account is never found
   * by its email; only a new email finds the new user.
   */
  lemma CreateKeepsFirstEmail(users: seq<UserRecord>, data: UserData, id: string, now: string)
    ensures var u := NewUser(data, id, now);
      (FindByEmail(users, data.email).Some? ==> FindByEmail(users + [u], data.email) == FindByEmail(users, data.email)) &&
      (FindByEmail(users, data.email).None? ==> FindByEmail(users + [u], data.email) == Some(u))
  {
    FindFirstSnoc(users, NewUser(data, id, now), (x: UserRecord) => x.email == data.email);
  }

  /** `Object.assign(user, updates)` followed by the new stamp. */
  function Merged(prev: UserRecord, p: UserUpdates, now: string): (r: UserRecord)
    ensures r.id == prev.id && r.createdAt == prev.createdAt && r.updatedAt == now
    ensures r.email == (if p.email.Some? then p.email.value else prev.email)
    ensures r.password == (if p.password.Some? then p.password.value else prev.password)
    ensures r.name == (if p.name.Some? then p.name.value else prev.name)
    ensures r.role == (if p.role.Some? then p.role.value else prev.role)
    ensures r.shopId == (if p.shopId.Some? then p.shopId.value else prev.shopId)
  {
    UserRecord(
      prev.id,
      p.email.GetOr(prev.email),
      p.password.GetOr(prev.password),
      p.name.GetOr(prev.name),
      p.role.GetOr(prev.role),
      p.shopId.GetOr(prev.shopId),
      prev.createdAt, now)
  }

  /** `update`: the merged user and the new array, or `null` and the array unchanged. */
  function Update(users: seq<UserRecord>, id: string, p: UserUpdates, now: string): (r: (Option<UserRecord>, seq<UserRecord>))
    ensures r.0.None? <==> forall i :: 0 <= i < |users| ==> users[i].id != id
    ensures r.0.None? ==> r.1 == users
    ensures |r.1| == |users|
  {
    match FindIndex(users, (u: UserRecord) => u.id == id)
    case None => (None, users)
    case Some(k) =>
      var updated := Merged(users[k], p, now);
      (Some(updated), users[k := updated])
  }

  /** An update of a stored id merges into the first user with it and changes no other user. */
  lemma UpdateAt(users: seq<UserRecord>, k: nat, p: UserUpdates, now: string)
    requires k < |users| && forall j :: 0 <= j < k ==> users[j].id != users[k].id
    ensures Update(users, users[k].id, p, now) == (Some(Merged(users[k], p, now)), users[k := Merged(users[k], p, now)])
  {
    var f := (u: UserRecord) => u.id == users[k].id;
    assert f(users[k]);
  }

  /** `delete`: whether a user was removed, and the new array. */
  function Delete(users: seq<UserRecord>, id: string): (r: (bool, seq<UserRecord>))
    ensures r.0 <==> exists i :: 0 <= i < |users| && users[i].id == id
    ensures !r.0 ==> r.1 == users
    ensures r.0 ==> |r.1| == |users| - 1
  {
    match FindIndex(users, (u: UserRecord) => u.id == id)
    case None => (false, users)
    case Some(k) => (true, RemoveAt(users, k))
  }

  /** A delete removes exactly the first user with the id and keeps the others in order. */
  lemma DeleteAt(users: seq<UserRecord>, k: nat)
    requires k < |users| && forall j :: 0 <= j < k ==> users[j].id != users[k].id
    ensures Delete(users, users[k].id) == (true, users[..k] + users[k + 1..])
  {
    var f := (u: UserRecord) => u.id == users[k].id;
    assert f(users[k]);
    assert RemoveAt(users, k) == users[..k] + users[k + 1..];
  }

  /** `toJSON`: every field but the password. */
  function ToJson(u: UserRecord): (j: PublicUser)
    ensures j.id == u.id && j.email == u.email && j.name == u.name && j.role == u.role && j.shopId == u.shopId
    ensures j.createdAt == u.createdAt && j.updatedAt == u.updatedAt
  {
    PublicUser(u.id, u.email, u.name, u.role, u.shopId, u.createdAt, u.updatedAt)
  }

  /** Two users have the same JSON exactly when they differ at most in their passwords. */
  lemma ToJsonHidesPassword(u: UserRecord, v: UserRecord)
    ensures ToJson(u) == ToJson(v) <==> u.(password := "") == v.(password := "")
  {
  }

  /** The in-memory `users` array with the model's static methods. */
  class Users {
    var users: seq<UserRecord>

    constructor()
      ensures users == []
    {
      users := [];
    }

    method FindUserByEmail(email: string) returns (r: Option<UserRecord>)
      ensures r == FindByEmail(users, email)
    {
      r := FindFirst(users, (u: UserRecord) => u.email == email);
    }

    method FindUserById(id: string) returns (r: Option<UserRecord>)
      ensures r == FindById(users, id)
    {
      r := FindFirst(users, (u: UserRecord) => u.id == id);
    }

    method Create(data: UserData, id: string, now: string) returns (u: UserRecord)
      modifies this
      ensures u == NewUser(data, id, now) && users == old(users) + [u]
    {
      u := NewUser(data, id, now);
      users := users + [u];
    }

    method UpdateUser(id: string, p: UserUpdates, now: string) returns (r: Option<UserRecord>)
      modifies this
      ensures (r, users) == Update(old(users), id, p, now)
    {
      var index := FindIndex(users, (u: UserRecord) => u.id == id);
      if index.None? {
        return None;
      }
      var user := Merged(users[index.value], p, now);
      users := users[index.value := user];
      r := Some(user);
    }

    method DeleteUser(id: string) returns (removed: bool)
      modifies this
      ensures (removed, users) == Delete(old(users), id)
    {
      var index := FindIndex(users, (u: UserRecord) => u.id == id);
      if index.None? {
        return false;
      }
      users := RemoveAt(users, index.value);
      removed := true;
    }
  }
}

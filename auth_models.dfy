/** The user table of api/auth/models.py. Password hashing belongs to
    werkzeug and is an uninterpreted function given to the repository;
    reading and writing the CSV file are not modelled. */
module AuthModels {
  import opened Values

  /** `User`: a name, the stored password hash and a role. */
  datatype User = User(username: string, passwordHash: string, role: string)

  /** The role `create_user` gives when none is named. */
  const DefaultRole: string := "user"

  /** `User.to_dict`: the public view of a user. */
  function ToDict(u: User): (d: map<string, string>)
    ensures d.Keys == {"username", "role"}
    ensures d["username"] == u.username && d["role"] == u.role
    ensures "password_hash" !in d
  {
    map["username" := u.username, "role" := u.role]
  }

  /** The table `_create_default_users` installs, hashing with `hash`. */
  function DefaultUsers(hash: string -> string): map<string, User>
  {
    map["admin" := User("admin", hash("admin123"), "admin"),
        "user" := User("user", hash("user123"), "user")]
  }

  /** The default table holds exactly `admin`, an administrator, and `user`,
      an ordinary user, each filed under its own name. */
  lemma DefaultTable(hash: string -> string)
    ensures DefaultUsers(hash).Keys == {"admin", "user"}
    ensures DefaultUsers(hash)["admin"] == User("admin", hash("admin123"), "admin")
    ensures DefaultUsers(hash)["user"] == User("user", hash("user123"), "user")
    ensures forall k :: k in DefaultUsers(hash) ==> DefaultUsers(hash)[k].username == k
  {
  }

  /** `s` without the element `x`, the rest in order: the key order of a
      Python dict after `del`. */
  function Without(s: seq<string>, x: string): (r: seq<string>)
    ensures forall y :: y in r <==> y in s && y != x
    ensures |r| <= |s|
    ensures Distinct(s) ==> Distinct(r)
  {
    if s == [] then []
    else
      var r' := Without(s[..|s| - 1], x);
      assert forall y :: y in s[..|s| - 1] ==> y in s;
      assert forall y :: y in s ==> y in s[..|s| - 1] || y == s[|s| - 1];
      assert Distinct(s) ==> Distinct(s[..|s| - 1]) && s[|s| - 1] !in s[..|s| - 1];
      r' + if s[|s| - 1] == x then [] else [s[|s| - 1]]
  }

  /** Removing an element that is not there leaves the sequence as it was. */
  lemma {:induction false} WithoutAbsent(s: seq<string>, x: string)
    requires x !in s
    ensures Without(s, x) == s
  {
    if s != [] {
      assert x !in s[..|s| - 1];
      WithoutAbsent(s[..|s| - 1], x);
    }
  }

  /** `UserRepository`: the dict of users by name; `order` is that dict's
      key order, which `list_users` shows. */
  class UserRepository {
    const hashPassword: string -> string
    var users: map<string, User>
    var order: seq<string>

    /** Every user is filed under its own name and listed once. */
    ghost predicate Valid()
      reads this
    {
      && (forall k :: k in order <==> k in users)
      && Distinct(order)
      && (forall k :: k in users ==> users[k].username == k)
    }

    /** `UserRepository.__init__` when the user file is absent or cannot be
        read: the default table. */
    constructor (hashPassword: string -> string)
      ensures Valid()
      ensures this.hashPassword == hashPassword
      ensures users == DefaultUsers(hashPassword)
      ensures order == ["admin", "user"]
    {
      this.hashPassword := hashPassword;
      users := DefaultUsers(hashPassword);
      order := ["admin", "user"];
    }

    /** `_create_default_users`: the table is replaced by the two demo
        accounts. */
    method CreateDefaultUsers()
      modifies this
      ensures Valid()
      ensures users == DefaultUsers(hashPassword)
      ensures order == ["admin", "user"]
    {
      users := DefaultUsers(hashPassword);
      order := ["admin", "user"];
    }

    /** `find_by_username`: `self.users.get(username)`. */
    function FindByUsername(username: string): (r: Option<User>)
      reads this
      ensures r.None? <==> username !in users
      ensures r.Some? ==> r.value == users[username]
    {
      if username in users then Some(users[username]) else None
    }

    /** `user_exists`: the name is a key of the table, which is exactly when
        `find_by_username` finds someone. */
    function UserExists(username: string): (b: bool)
      reads this
      ensures b <==> FindByUsername(username).Some?
    {
      username in users
    }

    /** `create_user`: a taken name is refused and nothing changes; a new
        name is added last with its password hashed and the given role. */
    method CreateUser(username: string, password: string, role: string := DefaultRole)
      returns (created: Option<User>)
      requires Valid()
      modifies this
      ensures Valid()
      ensures old(username in users) ==> created == None && users == old(users) && order == old(order)
      ensures old(username !in users) ==>
                && created == Some(User(username, hashPassword(password), role))
                && users == old(users)[username := created.value]
                && order == old(order) + [username]
      ensures created.Some? ==> UserExists(username) && FindByUsername(username) == created
      ensures forall u :: u != username ==> FindByUsername(u) == old(FindByUsername(u))
    {
      if username in users {
        created := None;
        return;
      }
      var user := User(username, hashPassword(password), role);
      users := users[username := user];
      order := order + [username];
      created := Some(user);
    }

    /** `delete_user`: an existing name is removed and the answer is true;
        an unknown name changes nothing and the answer is false. */
    method DeleteUser(username: string) returns (deleted: bool)
      requires Valid()
      modifies this
      ensures Valid()
      ensures deleted <==> old(username in users)
      ensures users == old(users) - {username}
      ensures order == Without(old(order), username)
      ensures !deleted ==> users == old(users) && order == old(order)
      ensures !UserExists(username)
      ensures forall u :: u != username ==> FindByUsername(u) == old(FindByUsername(u))
    {
      if username in users {
        users := users - {username};
        order := Without(order, username);
        return true;
      }
      WithoutAbsent(order, username);
      assert users - {username} == users;
      return false;
    }

    /** `list_users`: one public view per user, in key order. */
    function ListUsers(): (r: seq<map<string, string>>)
      requires Valid()
      reads this
      ensures |r| == |order|
      ensures forall i :: 0 <= i < |r| ==> r[i] == ToDict(users[order[i]])
    {
      var keys, table := order, users;
      seq(|keys|, i requires 0 <= i < |keys| => ToDict(table[keys[i]]))
    }

    /** `list_users` shows every user exactly once, with its name and role
        and never its password hash. */
    lemma ListUsersIsTable()
      requires Valid()
      ensures forall i :: 0 <= i < |ListUsers()| ==> "password_hash" !in ListUsers()[i] && ListUsers()[i]["username"] in users
      ensures forall u :: u in users ==> exists i :: 0 <= i < |ListUsers()| && ListUsers()[i] == ToDict(users[u])
      ensures forall i, j :: 0 <= i < j < |ListUsers()| ==> ListUsers()[i]["username"] != ListUsers()[j]["username"]
    {
      var r := ListUsers();
      forall i | 0 <= i < |r|
        ensures r[i]["username"] == order[i]
      {
        assert order[i] in order;
      }
      forall u | u in users
        ensures exists i :: 0 <= i < |r| && r[i] == ToDict(users[u])
      {
        var i :| 0 <= i < |order| && order[i] == u;
        assert r[i] == ToDict(users[u]);
      }
    }
  }

  /** A name can be taken, is refused while taken, and can be taken again
      once its user is deleted. */
  method Lifecycle(hash: string -> string)
    returns (first: Option<User>, again: Option<User>, removed: bool, removedAgain: bool, retaken: Option<User>)
    ensures first == Some(User("alice", hash("pw"), "user"))
    ensures again == None
    ensures removed && !removedAgain
    ensures retaken == Some(User("alice", hash("pw2"), "admin"))
  {
    var repo := new UserRepository(hash);
    first := repo.CreateUser("alice", "pw");
    again := repo.CreateUser("alice", "other", "admin");
    removed := repo.DeleteUser("alice");
    removedAgain := repo.DeleteUser("alice");
    retaken := repo.CreateUser("alice", "pw2", "admin");
  }
}

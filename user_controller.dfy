/** `controllers/user_controller.py`: the login check and the status update,
    over an abstract user store standing for the SQLite table. */
module UserController {
  import opened Common

  /** A row of the users table. */
  datatype User = User(id: int, username: string, password: string, status: string)

  /** The store: users by name, and whether the database can be reached. */
  datatype Store = Store(users: map<string, User>, available: bool)

  /** `User.get_user`: the user's row, or `None` when there is none or the
      query fails. */
  function GetUser(store: Store, username: string): (r: Option<User>)
    ensures r.Some? <==> store.available && username in store.users
    ensures r.Some? ==> r.value == store.users[username]
  {
    if store.available && username in store.users then Some(store.users[username]) else None
  }

  /** `login`: the user's row when it exists and its password matches. */
  function Login(store: Store, username: string, password: string): (bool, Option<User>)
  {
    var user := GetUser(store, username);
    if user.Some? && user.value.password == password then (true, user) else (false, None)
  }

  /** Login succeeds exactly for a known user with the stored password, and
      then returns that user's row; otherwise it returns no user. */
  lemma LoginCorrect(store: Store, username: string, password: string)
    ensures Login(store, username, password).0 <==>
      store.available && username in store.users && store.users[username].password == password
    ensures Login(store, username, password).0 ==> Login(store, username, password).1 == Some(store.users[username])
    ensures !Login(store, username, password).0 ==> Login(store, username, password).1 == None
  {
  }

  /** Unknown users, an unreachable store and wrong passwords are refused. */
  lemma LoginRefusals(store: Store, username: string, password: string)
    ensures !store.available ==> Login(store, username, password) == (false, None)
    ensures username !in store.users ==> Login(store, username, password) == (false, None)
    ensures username in store.users && store.users[username].password != password ==>
      Login(store, username, password) == (false, None)
  {
  }

  /** `User.update_status`: every row with the id takes the new status; the
      result says whether the update went through. */
  function StoreUpdateStatus(store: Store, userId: int, status: string): (r: (bool, Store))
    ensures r.0 == store.available
    ensures r.1.available == store.available && r.1.users.Keys == store.users.Keys
  {
    if !store.available then (false, store)
    else
      (true, Store(map name | name in store.users ::
                     if store.users[name].id == userId then store.users[name].(status := status) else store.users[name],
                   true))
  }

  /** `update_status` hands back the store's own result. */
  function UpdateStatus(store: Store, userId: int, status: string): (r: (bool, Store))
  {
    StoreUpdateStatus(store, userId, status)
  }

  /** The update reports success exactly when the store is reachable; it
      sets the status of the user with that id and changes nothing else. */
  lemma UpdateStatusEffect(store: Store, userId: int, status: string, name: string)
    requires name in store.users
    ensures var (ok, after) := UpdateStatus(store, userId, status);
      && ok == store.available
      && name in after.users
      && (ok && store.users[name].id == userId ==> after.users[name] == store.users[name].(status := status))
      && (!ok || store.users[name].id != userId ==> after.users[name] == store.users[name])
  {
  }
}

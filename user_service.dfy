/**
 * The session store: `login` and `register` keep the returned token and user in
 * localStorage, `logout` drops them, and the read-only queries every other
 * component asks (`getStoredUser`, `isAuthenticated`, `isAdmin`, `getToken`).
 */
module UserService {
  import opened Wrappers
  import opened Records
  import opened Storage
  import opened ApiService

  /** The reply of the login and register endpoints. */
  datatype AuthResponse = AuthResponse(token: Option<string>, user: Option<User>)

  /**
   * What `JSON.stringify(response.user)` leaves under `user`: the record, or, for a
   * missing user, the text "undefined", which `JSON.parse` later rejects.
   */
  function UserItem(user: Option<User>): Item {
    if user.Some? then UserJson(user.value) else Text("undefined")
  }

  /** The storage after a settled auth reply: a session is kept only when the reply carries a truthy token. */
  function AfterAuth(items: map<string, Item>, response: AuthResponse): map<string, Item> {
    if Truthy(response.token) then
      items["token" := Text(response.token.value)]["user" := UserItem(response.user)]
    else
      items
  }

  /** The storage after `logout()`. */
  function AfterLogout(items: map<string, Item>): map<string, Item> {
    items - {"token", "user"}
  }

  /** `getStoredUser()`: the parsed user, or None when nothing is stored or it does not parse. */
  function GetStoredUser(items: map<string, Item>): (user: Option<User>)
    ensures user.None? <==> "user" !in items || !items["user"].UserJson?
    ensures user.Some? ==> items["user"] == UserJson(user.value)
  {
    match GetItem(items, "user")
    case Some(UserJson(u)) => Some(u)
    case _ => None
  }

  /** `isAuthenticated()`: `!!localStorage.getItem('token')`. */
  predicate IsAuthenticated(items: map<string, Item>) {
    Truthy(GetAuthToken(items))
  }

  /** `isAdmin()`: `user?.role?.id === 1`. */
  predicate IsAdmin(items: map<string, Item>) {
    var user := GetStoredUser(items);
    user.Some? && user.value.roleId == Some(1)
  }

  /** `getToken()`, which reads the same key as the client's `getAuthToken()`. */
  function GetToken(items: map<string, Item>): Option<string> {
    GetAuthToken(items)
  }

  /** The storage effect `login` and `register` share once the backend has answered. */
  method SaveSession(store: LocalStorage, response: AuthResponse)
    modifies store
    ensures store.items == AfterAuth(old(store.items), response)
  {
    if Truthy(response.token) {
      store.SetItem("token", Text(response.token.value));
      store.SetItem("user", UserItem(response.user));
    }
  }

  /** `login(email, password)`, given the settled reply of the login endpoint; it returns that reply. */
  method Login(store: LocalStorage, reply: Result<AuthResponse, ErrorBody>) returns (r: Result<AuthResponse, ErrorBody>)
    modifies store
    ensures r == reply
    ensures store.items == if reply.Success? then AfterAuth(old(store.items), reply.value) else old(store.items)
  {
    if reply.Success? {
      SaveSession(store, reply.value);
    }
    r := reply;
  }

  /** `register(userData)`, given the settled reply of the register endpoint; it returns that reply. */
  method Register(store: LocalStorage, reply: Result<AuthResponse, ErrorBody>) returns (r: Result<AuthResponse, ErrorBody>)
    modifies store
    ensures r == reply
    ensures store.items == if reply.Success? then AfterAuth(old(store.items), reply.value) else old(store.items)
  {
    if reply.Success? {
      SaveSession(store, reply.value);
    }
    r := reply;
  }

  method Logout(store: LocalStorage)
    modifies store
    ensures store.items == AfterLogout(old(store.items))
  {
    store.RemoveItem("token");
    store.RemoveItem("user");
  }

  /**
   * After a reply with a truthy token the session answers from that reply: authenticated,
   * the same token, the same user (None when the reply had none) and admin exactly for
   * role 1; no other key changes.
   */
  lemma SessionAfterAuth(items: map<string, Item>, response: AuthResponse)
    requires Truthy(response.token)
    ensures IsAuthenticated(AfterAuth(items, response))
    ensures GetToken(AfterAuth(items, response)) == response.token
    ensures GetStoredUser(AfterAuth(items, response)) == response.user
    ensures IsAdmin(AfterAuth(items, response)) <==>
      response.user.Some? && response.user.value.roleId == Some(1)
    ensures forall k :: k != "token" && k != "user" ==> GetItem(AfterAuth(items, response), k) == GetItem(items, k)
  {
  }

  /** Without a truthy token the reply leaves storage as it was. */
  lemma NoTokenNoSession(items: map<string, Item>, response: AuthResponse)
    requires !Truthy(response.token)
    ensures AfterAuth(items, response) == items
  {
  }

  /** After `logout()` no session remains, and every other key is kept. */
  lemma LogoutEndsSession(items: map<string, Item>)
    ensures !IsAuthenticated(AfterLogout(items))
    ensures GetToken(AfterLogout(items)).None?
    ensures GetStoredUser(AfterLogout(items)).None?
    ensures !IsAdmin(AfterLogout(items))
    ensures forall k :: k != "token" && k != "user" ==> GetItem(AfterLogout(items), k) == GetItem(items, k)
  {
  }

  /** Being an administrator requires a stored, parseable user. */
  lemma AdminNeedsStoredUser(items: map<string, Item>)
    requires IsAdmin(items)
    ensures "user" in items && items["user"].UserJson? && items["user"].user.roleId == Some(1)
  {
  }
}

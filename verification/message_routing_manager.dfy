/** The routing of app/services/message_routing_manager.py: each user is
    given one thread, created remotely on first contact and kept in the
    session registry. The registry and the remote client, module-level
    globals in the source, are passed in explicitly. */
module MessageRoutingManager {
  import opened Wrappers
  import opened ThreadsManager
  import opened InterfaceOpenAI

  /** The number of thread-creation calls in a call log. */
  function CreateCount(log: seq<Call>): nat {
    multiset(log)[ThreadsCreate]
  }

  /** What `get_or_create_thread` does, on the registry's map `db` and the
      call log `h`: the result, the new map and the new log. */
  function GetOrCreateSpec(r: Remote, db: map<string, string>, h: seq<Call>, userName: string)
    : (res: (Result<string, Error>, map<string, string>, seq<Call>))
  {
    if userName in db then (Ok(db[userName]), db, h)
    else
      var (created, h') := CreateThreadSpec(r, h);
      match created
      case Ok(threadId) => (Ok(threadId), db[userName := threadId], h')
      case Err(e) => (Err(e), db, h')
  }

  /** `check_if_thread_exists`: exactly what `retrieve_thread_id` returns. */
  method CheckIfThreadExists(store: ThreadStore, userName: string) returns (r: Option<string>)
    ensures r.Some? <==> userName in store.db
    ensures r.Some? ==> r.value == store.db[userName]
  {
    r := store.RetrieveThreadId(userName);
  }

  /** `check_if_user_name_exists`: exactly what `retrieve_user_name` returns. */
  method CheckIfUserNameExists(store: ThreadStore, threadId: string) returns (r: Option<string>)
    ensures IsReverseLookup(store.db, threadId, r)
  {
    r := store.RetrieveUserName(threadId);
  }

  /** `store_thread`: exactly what `upsert_thread` does and returns. */
  method StoreThread(store: ThreadStore, userName: string, threadId: string) returns (msg: string)
    modifies store
    ensures store.db == old(store.db)[userName := threadId]
    ensures msg == UpsertMessage(threadId, userName)
  {
    msg := store.UpsertThread(userName, threadId);
  }

  /** `get_or_create_thread`: the user's thread, created remotely and stored
      when the user has none. The thread is created before anything is
      stored, so a failing creation leaves the registry as it was. */
  method GetOrCreateThread(store: ThreadStore, client: Client, userName: string) returns (r: Result<string, Error>)
    modifies store, client
    ensures (r, store.db, client.log) == GetOrCreateSpec(client.remote, old(store.db), old(client.log), userName)
  {
    var existing := CheckIfThreadExists(store, userName);
    if existing.Some? {
      return Ok(existing.value);
    }
    r := client.CreateThread();
    if r.Ok? {
      var _ := StoreThread(store, userName, r.value);
    }
  }

  /** A user who already has a thread gets it back; no remote call is made
      and the registry is unchanged. */
  lemma GetOrCreateExisting(r: Remote, db: map<string, string>, h: seq<Call>, userName: string)
    requires userName in db
    ensures GetOrCreateSpec(r, db, h, userName) == (Ok(db[userName]), db, h)
  {
  }

  /** A user without a thread causes exactly one creation call; on success
      the new id is stored for the user and returned, on failure the
      registry is untouched. */
  lemma GetOrCreateAbsent(r: Remote, db: map<string, string>, h: seq<Call>, userName: string)
    requires userName !in db
    ensures var (res, db', h') := GetOrCreateSpec(r, db, h, userName);
      && h' == h + [ThreadsCreate]
      && CreateCount(h') == CreateCount(h) + 1
      && (res.Ok? ==> res.value == r.issuedId(h') && db' == db[userName := res.value])
      && (res.Err? ==> db' == db)
  {
  }

  /** On success the registry maps the user to the returned id, and every
      other user's record is as it was. */
  lemma GetOrCreateStoresUser(r: Remote, db: map<string, string>, h: seq<Call>, userName: string)
    ensures var (res, db', h') := GetOrCreateSpec(r, db, h, userName);
      && (res.Ok? ==> userName in db' && db'[userName] == res.value)
      && (forall v :: v != userName ==> (v in db' <==> v in db))
      && (forall v :: v != userName && v in db ==> db'[v] == db[v])
  {
  }

  /** Two calls in a row for one user give the same id, and together make
      at most one creation call (exactly one when the user was new). */
  lemma GetOrCreateTwice(r: Remote, db: map<string, string>, h: seq<Call>, userName: string)
    ensures var (res1, db1, h1) := GetOrCreateSpec(r, db, h, userName);
      var (res2, db2, h2) := GetOrCreateSpec(r, db1, h1, userName);
      res1.Ok? ==>
        && res2 == res1 && db2 == db1 && h2 == h1
        && CreateCount(h2) == CreateCount(h) + (if userName in db then 0 else 1)
  {
  }

  /** Routing keeps "no two users share a thread id" as long as a newly
      created thread's id is not already some user's thread. */
  lemma GetOrCreateKeepsInjective(r: Remote, db: map<string, string>, h: seq<Call>, userName: string)
    requires Injective(db)
    requires userName !in db ==> r.issuedId(h + [ThreadsCreate]) !in db.Values
    ensures Injective(GetOrCreateSpec(r, db, h, userName).1)
  {
  }
}

/** The session registry of app/data/threads_manager.py: a persistent dictionary
    from user name to thread id. The `shelve` file is only its backing store, so
    the model keeps the logical dictionary as a map field that the mutating
    operations reassign; what each operation prints is returned as a string. */
module ThreadsManager {
  import opened Wrappers
  import opened Text

  /** The line printed for each record by `print_shelve_contents`. */
  function EntryLine(userName: string, threadId: string): string {
    "user_name: " + userName + " -> Thread ID: " + threadId
  }

  /** The line `print_shelve_contents` prints for an empty store. */
  const EmptyNotice: string := "O banco de dados shelve está vazio."

  /** The success string `upsert_thread` returns. */
  function UpsertMessage(threadId: string, userName: string): string {
    "Thread_id " + threadId + " : e user_name: " + userName + " atualizado/inserido com sucesso."
  }

  /** The two lines `delete_thread` may print. */
  function RemovedNotice(userName: string): string {
    "Thread " + userName + " removido com sucesso."
  }

  function NotFoundNotice(userName: string): string {
    "Thread com nome de usuário " + userName + " não encontrado."
  }

  /** No two users share a thread id. */
  ghost predicate Injective(m: map<string, string>) {
    forall u, v :: u in m && v in m && u != v ==> m[u] != m[v]
  }

  /** `r` is an answer `retrieve_user_name(t)` may give on store `m`: a user
      whose thread is `t`, and None exactly when no user has thread `t`. Which
      user is found first when several share `t` depends on the store's
      iteration order, which the model leaves open. */
  ghost predicate IsReverseLookup(m: map<string, string>, t: string, r: Option<string>) {
    && (r.Some? ==> r.value in m && m[r.value] == t)
    && (r.None? <==> t !in m.Values)
  }

  /** `lines` prints the records of `m` named by `order`, one line each, in
      that order, and no record twice. */
  ghost predicate PrintsRecordsInOrder(m: map<string, string>, lines: seq<string>, order: seq<string>) {
    && |order| == |lines|
    && (forall i, j :: 0 <= i < j < |order| ==> order[i] != order[j])
    && (forall i :: 0 <= i < |order| ==> order[i] in m && lines[i] == EntryLine(order[i], m[order[i]]))
  }

  class ThreadStore {
    /** The logical content of the shelve file: user name to thread id. */
    var db: map<string, string>

    /** A store holding what the backing file holds when it is opened. */
    constructor (contents: map<string, string>)
      ensures db == contents
    {
      db := contents;
    }

    /** `retrieve_thread_id`: the stored id for `userName`, None when absent.
        The store is opened read-only, so the method modifies nothing. */
    method RetrieveThreadId(userName: string) returns (r: Option<string>)
      ensures r.Some? <==> userName in db
      ensures r.Some? ==> r.value == db[userName]
    {
      if userName in db {
        r := Some(db[userName]);
      } else {
        r := None;
      }
    }

    /** `retrieve_user_name`: a linear scan over the records for one whose
        thread id is `threadId`; the first match is returned. */
    method RetrieveUserName(threadId: string) returns (r: Option<string>)
      ensures IsReverseLookup(db, threadId, r)
    {
      var pending := db.Keys;
      while pending != {}
        invariant pending <= db.Keys
        invariant forall u :: u in db && u !in pending ==> db[u] != threadId
        decreases |pending|
      {
        var u :| u in pending;
        if db[u] == threadId {
          return Some(u);
        }
        pending := pending - {u};
      }
      r := None;
    }

    /** `print_shelve_contents`: the lines printed, one per record in the
        store's iteration order, or the empty notice alone. */
    method PrintShelveContents() returns (lines: seq<string>)
      ensures |db| == 0 ==> lines == [EmptyNotice]
      ensures |db| != 0 ==> |lines| == |db|
      ensures |db| != 0 ==> forall u :: u in db ==> EntryLine(u, db[u]) in lines
      ensures |db| != 0 ==> forall i :: 0 <= i < |lines| ==>
                exists u :: u in db && lines[i] == EntryLine(u, db[u])
      ensures |db| != 0 ==> exists order :: PrintsRecordsInOrder(db, lines, order)
    {
      if |db| == 0 {
        return [EmptyNotice];
      }
      lines := [];
      ghost var order: seq<string> := [];
      var pending := db.Keys;
      while pending != {}
        invariant pending <= db.Keys
        invariant |lines| + |pending| == |db.Keys|
        invariant PrintsRecordsInOrder(db, lines, order)
        invariant forall i :: 0 <= i < |order| ==> order[i] !in pending
        invariant forall u :: u in db && u !in pending ==> EntryLine(u, db[u]) in lines
        invariant forall i :: 0 <= i < |lines| ==>
                    exists u :: u in db && u !in pending && lines[i] == EntryLine(u, db[u])
        decreases |pending|
      {
        var u :| u in pending;
        lines := lines + [EntryLine(u, db[u])];
        order := order + [u];
        pending := pending - {u};
      }
      assert |db| == |db.Keys|;
    }

    /** `upsert_thread`: inserts the record or replaces the user's thread id;
        every other record stays as it was. */
    method UpsertThread(userName: string, threadId: string) returns (msg: string)
      modifies this
      ensures db == old(db)[userName := threadId]
      ensures msg == UpsertMessage(threadId, userName)
    {
      db := db[userName := threadId];
      msg := UpsertMessage(threadId, userName);
    }

    /** `delete_thread`: removes the user's record when there is one and
        otherwise leaves the store alone; it never raises. */
    method DeleteThread(userName: string) returns (notice: string)
      modifies this
      ensures db == old(db) - {userName}
      ensures notice == if userName in old(db) then RemovedNotice(userName) else NotFoundNotice(userName)
    {
      if userName in db {
        db := db - {userName};
        notice := RemovedNotice(userName);
      } else {
        notice := NotFoundNotice(userName);
      }
    }

    /** `clear_all_threads`: empties the store. */
    method ClearAllThreads()
      modifies this
      ensures db == map[]
    {
      db := map[];
    }
  }

  /** The success string of `upsert_thread` names both the thread id and the user. */
  lemma UpsertMessageMentions(threadId: string, userName: string)
    ensures Mentions(UpsertMessage(threadId, userName), threadId)
    ensures Mentions(UpsertMessage(threadId, userName), userName)
  {
    var s := UpsertMessage(threadId, userName);
    var head := "Thread_id ";
    var mid := " : e user_name: ";
    assert OccursAt(s, threadId, |head|);
    assert OccursAt(s, userName, |head| + |threadId| + |mid|);
  }

  /** After an upsert the user's lookup yields the new id and the other
      records are untouched. */
  lemma UpsertSetsOnlyUser(m: map<string, string>, u: string, t: string)
    ensures u in m[u := t] && m[u := t][u] == t
    ensures forall v :: v != u ==> (v in m[u := t] <==> v in m)
    ensures forall v :: v != u && v in m ==> m[u := t][v] == m[v]
  {
  }

  /** A second upsert for the same user replaces the first id. */
  lemma UpsertOverwrites(m: map<string, string>, u: string, t1: string, t2: string)
    ensures m[u := t1][u := t2] == m[u := t2]
  {
  }

  /** Repeating an upsert leaves the store unchanged. */
  lemma UpsertIdempotent(m: map<string, string>, u: string, t: string)
    ensures m[u := t][u := t] == m[u := t]
  {
  }

  /** After a delete the user is absent and every other record is kept;
      deleting an absent user changes nothing. */
  lemma DeleteRemovesOnlyUser(m: map<string, string>, u: string)
    ensures u !in m - {u}
    ensures forall v :: v != u ==> (v in m - {u} <==> v in m)
    ensures forall v :: v != u && v in m ==> (m - {u})[v] == m[v]
    ensures u !in m ==> m - {u} == m
  {
  }

  /** While no two users share a thread id, the reverse lookup of a user's
      thread gives back that user. */
  lemma ReverseOfForward(m: map<string, string>, u: string, r: Option<string>)
    requires Injective(m) && u in m
    requires IsReverseLookup(m, m[u], r)
    ensures r == Some(u)
  {
  }

  /** Without that invariant the round trip can fail: with two users on one
      thread, the scan may answer with the other user. */
  lemma SharedThreadBreaksRoundTrip()
    ensures IsReverseLookup(map["Ana" := "t1", "Rui" := "t1"], "t1", Some("Rui"))
  {
  }
}

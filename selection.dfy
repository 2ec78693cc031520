/**
 * List operations that Campaigns, Messaging and Calls each write out the same way: toggling a
 * lead in the selection, upserting a status log pushed by the server, and choosing the leads a
 * channel can reach.
 */
module Selection {
  import opened Seqs
  import opened Records

  /** Every occurrence of x removed: ids.filter((y) => y !== x). */
  function Remove(ids: seq<string>, x: string): (r: seq<string>)
    ensures x !in r
    ensures forall y :: y != x ==> (y in r <==> y in ids)
    ensures |r| <= |ids|
  {
    var r := Filter(ids, y => y != x);
    assert forall i :: 0 <= i < |ids| && ids[i] != x ==> ids[i] in r;
    r
  }

  /** toggleLead: remove the id when it is selected, else append it. */
  function Toggle(ids: seq<string>, id: string): seq<string>
  {
    if id in ids then Remove(ids, id) else ids + [id]
  }

  /** Toggling flips the id's membership and leaves every other id as it was. */
  lemma ToggleFlips(ids: seq<string>, id: string)
    ensures id in Toggle(ids, id) <==> id !in ids
    ensures forall y :: y != id ==> (y in Toggle(ids, id) <==> y in ids)
    ensures id !in ids ==> Toggle(ids, id) == ids + [id]
  {
  }

  /** A selection without duplicates stays without duplicates. */
  lemma ToggleKeepsNoDup(ids: seq<string>, id: string)
    requires NoDup(ids)
    ensures NoDup(Toggle(ids, id))
  {
    if id in ids {
      FilterNoDup(ids, y => y != id);
    }
  }

  /** Toggling an unselected id twice restores the selection exactly. */
  lemma ToggleTwiceRestores(ids: seq<string>, id: string)
    requires id !in ids
    ensures Toggle(Toggle(ids, id), id) == ids
  {
    FilterAppend(ids, [id], y => y != id);
    FilterAll(ids, y => y != id);
  }

  /**
   * Toggling a selected id twice restores which ids are selected, though the id moves to the end.
   */
  lemma ToggleTwiceSameMembers(ids: seq<string>, id: string)
    requires id in ids
    ensures forall y :: y in Toggle(Toggle(ids, id), id) <==> y in ids
    ensures Toggle(Toggle(ids, id), id) == Remove(ids, id) + [id]
  {
  }

  /** The status-log update: the incoming log first, every earlier entry with its _id dropped. */
  function Upsert<T>(logs: seq<T>, log: T, key: T -> string): (r: seq<T>)
    ensures |r| >= 1 && r[0] == log
    ensures r[1..] == Filter(logs, item => key(item) != key(log))
    ensures forall i :: 1 <= i < |r| ==> key(r[i]) != key(log)
    ensures |r| <= |logs| + 1
  {
    [log] + Filter(logs, item => key(item) != key(log))
  }

  /** Logs whose keys are distinct stay distinct after an upsert. */
  predicate UniqueKeys<T>(logs: seq<T>, key: T -> string) {
    forall i, j :: 0 <= i < j < |logs| ==> key(logs[i]) != key(logs[j])
  }

  lemma {:induction false} FilterKeepsUniqueKeys<T>(logs: seq<T>, key: T -> string, p: T -> bool)
    requires UniqueKeys(logs, key)
    ensures UniqueKeys(Filter(logs, p), key)
    ensures forall i :: 0 <= i < |Filter(logs, p)| ==> exists j :: 0 <= j < |logs| && logs[j] == Filter(logs, p)[i]
  {
    if logs != [] {
      FilterKeepsUniqueKeys(logs[1..], key, p);
      var rest := Filter(logs[1..], p);
      forall i | 0 <= i < |rest| ensures key(rest[i]) != key(logs[0]) {
        var j :| 0 <= j < |logs[1..]| && logs[1..][j] == rest[i];
        assert logs[j + 1] == rest[i];
      }
      var r := Filter(logs, p);
      forall i | 0 <= i < |r| ensures exists j :: 0 <= j < |logs| && logs[j] == r[i] {
        if p(logs[0]) && i == 0 {
          assert logs[0] == r[i];
        } else {
          var i' := if p(logs[0]) then i - 1 else i;
          assert r[i] == rest[i'];
          var j :| 0 <= j < |logs[1..]| && logs[1..][j] == rest[i'];
          assert logs[j + 1] == r[i];
        }
      }
    }
  }

  /** Upserting keeps the log free of duplicate ids: each id is listed at most once. */
  lemma UpsertKeepsUniqueKeys<T>(logs: seq<T>, log: T, key: T -> string)
    requires UniqueKeys(logs, key)
    ensures UniqueKeys(Upsert(logs, log, key), key)
  {
    FilterKeepsUniqueKeys(logs, key, item => key(item) != key(log));
  }

  /** The leads a campaign or a bulk message can reach: with an email for email, else with a phone. */
  function Recipients(leads: seq<Lead>, channel: string): (r: seq<Lead>)
    ensures forall i :: 0 <= i < |r| ==> r[i] in leads
    ensures forall i :: 0 <= i < |r| ==> if channel == "email" then r[i].email != "" else r[i].phone != ""
    ensures forall i :: 0 <= i < |leads| && (if channel == "email" then leads[i].email != "" else leads[i].phone != "") ==> leads[i] in r
  {
    if channel == "email" then Filter(leads, (l: Lead) => l.email != "")
    else Filter(leads, (l: Lead) => l.phone != "")
  }

  /** The leads the calling screen lists: exactly those with a phone, as non-email recipients. */
  function Callable(leads: seq<Lead>): (r: seq<Lead>)
    ensures forall i :: 0 <= i < |r| ==> r[i] in leads && r[i].phone != ""
    ensures forall i :: 0 <= i < |leads| && leads[i].phone != "" ==> leads[i] in r
    ensures forall channel :: channel != "email" ==> r == Recipients(leads, channel)
  {
    Filter(leads, (l: Lead) => l.phone != "")
  }
}

/**
 The per-user conversation memory: a map from user id to that user's turns,
 where recording a message appends a user turn and keeps only the newest
 `memoryLimit` entries (Python's `h[-memoryLimit:]`).
 */
module History {
  import opened Ints


  /** One entry of a history: `{"role": role, "content": content}`. */
  datatype Turn = Turn(role: string, content: string)

  /** The only kind of turn the program ever records. */
  function UserTurn(msg: string): Turn {
    Turn("user", msg)
  }

  /** `user_histories`: user id to turns, oldest first. */
  type Histories = map<string, seq<Turn>>

  /** `user_histories[uid]` on a `defaultdict(list)`: an unknown user has no turns. */
  function Lookup(h: Histories, uid: string): seq<Turn> {
    if uid in h then h[uid] else []
  }

  /** The newest `k` entries of `s` (all of `s` when it is shorter), oldest first.
      For `k >= 1` this is `KeepLast(s, k)`; it exists as the plain statement
      of "newest k" that the Python slice is proved against. */
  function Newest<T>(s: seq<T>, k: nat): seq<T> {
    s[|s| - Min(k, |s|)..]
  }

  /** Python's `s[-limit:]` for any integer `limit`: a negative start counts
      from the end and is clamped to 0; a start of `-0 == 0` takes everything;
      a positive start is clamped to `len(s)`. */
  function KeepLast<T>(s: seq<T>, limit: int): (r: seq<T>)
    ensures |r| <= |s| && r == s[|s| - |r|..]
    ensures limit >= 1 ==> |r| == Min(limit, |s|)
    ensures limit == 0 ==> r == s
    ensures limit < 0 ==> |r| == |s| - Min(-limit, |s|)
  {
    var start := -limit;
    var i := if start < 0 then (if start + |s| < 0 then 0 else start + |s|)
             else (if start > |s| then |s| else start);
    s[i..]
  }

  /** `record_history(uid, msg)`: append the user turn to `uid`'s history and
      keep the newest `memoryLimit` entries. No other user's history changes.
      With a limit of at least 1 the history stays within the limit; with a
      non-negative limit the newest entry is the turn just recorded. */
  function RecordHistory(h: Histories, uid: string, msg: string, memoryLimit: int): (r: Histories)
    ensures r.Keys == h.Keys + {uid}
    ensures forall u :: u in h && u != uid ==> r[u] == h[u]
    ensures var appended := Lookup(h, uid) + [UserTurn(msg)];
      |r[uid]| <= |appended| && r[uid] == appended[|appended| - |r[uid]|..]
    ensures memoryLimit >= 1 ==> |r[uid]| == Min(memoryLimit, |Lookup(h, uid)| + 1) <= memoryLimit
    ensures memoryLimit >= 0 ==> |r[uid]| >= 1 && r[uid][|r[uid]| - 1] == UserTurn(msg)
  {
    var appended := Lookup(h, uid) + [UserTurn(msg)];
    var kept := KeepLast(appended, memoryLimit);
    UpdateLeavesOthers(h, uid, kept);
    h[uid := kept]
  }

  /** Storing one user's history leaves every other entry as it was. */
  lemma UpdateLeavesOthers(h: Histories, uid: string, turns: seq<Turn>)
    ensures forall u :: u in h && u != uid ==> h[uid := turns][u] == h[u]
  {}

  /** With a positive limit the stored history is exactly the newest turns. */
  lemma RecordKeepsNewest(h: Histories, uid: string, msg: string, memoryLimit: int)
    requires memoryLimit >= 1
    ensures RecordHistory(h, uid, msg, memoryLimit)[uid]
         == Newest(Lookup(h, uid) + [UserTurn(msg)], memoryLimit)
  {}

  /** Keeping the newest `k` twice, with more entries appended in between,
      is the same as keeping the newest `k` once at the end. */
  lemma NewestAppend<T>(x: seq<T>, y: seq<T>, k: nat)
    ensures Newest(Newest(x, k) + y, k) == Newest(x + y, k)
  {
    var m := Min(k, |x|);
    assert Newest(x, k) + y == (x + y)[|x| - m..];
  }

  /** The user turns for a series of messages, in order. */
  function UserTurns(msgs: seq<string>): (ts: seq<Turn>)
    ensures |ts| == |msgs|
    ensures forall i :: 0 <= i < |msgs| ==> ts[i] == UserTurn(msgs[i])
  {
    if msgs == [] then [] else [UserTurn(msgs[0])] + UserTurns(msgs[1..])
  }

  lemma AppendAssoc<T>(a: seq<T>, b: seq<T>, c: seq<T>)
    ensures a + (b + c) == (a + b) + c
  {}

  /** Recording several messages for one user, oldest first. */
  function RecordAll(h: Histories, uid: string, msgs: seq<string>, memoryLimit: int): Histories
    decreases |msgs|
  {
    if msgs == [] then h
    else RecordAll(RecordHistory(h, uid, msgs[0], memoryLimit), uid, msgs[1..], memoryLimit)
  }

  /** After any series of recordings the user's history is the newest
      `memoryLimit` turns of everything recorded, in original order. */
  lemma {:induction false} RecordAllKeepsNewest(h: Histories, uid: string, msgs: seq<string>, memoryLimit: int)
    requires memoryLimit >= 1 && |Lookup(h, uid)| <= memoryLimit
    ensures msgs != [] ==> uid in RecordAll(h, uid, msgs, memoryLimit)
    ensures Lookup(RecordAll(h, uid, msgs, memoryLimit), uid)
         == Newest(Lookup(h, uid) + UserTurns(msgs), memoryLimit)
    decreases |msgs|
  {
    if msgs != [] {
      var h1 := RecordHistory(h, uid, msgs[0], memoryLimit);
      RecordAllKeepsNewest(h1, uid, msgs[1..], memoryLimit);
      RecordAllKeepsKeys(h1, uid, msgs[1..], memoryLimit);
      RecordKeepsNewest(h, uid, msgs[0], memoryLimit);
      NewestAppend(Lookup(h, uid) + [UserTurn(msgs[0])], UserTurns(msgs[1..]), memoryLimit);
      AppendAssoc(Lookup(h, uid), [UserTurn(msgs[0])], UserTurns(msgs[1..]));
    } else {
      assert UserTurns(msgs) == [];
      if uid in h {
        assert Newest(h[uid], memoryLimit) == h[uid];
      }
    }
  }

  /** Recording never removes a user id. */
  lemma {:induction false} RecordAllKeepsKeys(h: Histories, uid: string, msgs: seq<string>, memoryLimit: int)
    ensures h.Keys <= RecordAll(h, uid, msgs, memoryLimit).Keys
    decreases |msgs|
  {
    if msgs != [] {
      RecordAllKeepsKeys(RecordHistory(h, uid, msgs[0], memoryLimit), uid, msgs[1..], memoryLimit);
    }
  }

  /** Every stored history is within the limit. */
  predicate Bounded(h: Histories, memoryLimit: int) {
    forall u :: u in h ==> |h[u]| <= memoryLimit
  }

  /** Recording keeps every history within a positive limit. */
  lemma RecordPreservesBounded(h: Histories, uid: string, msg: string, memoryLimit: int)
    requires memoryLimit >= 1 && Bounded(h, memoryLimit)
    ensures Bounded(RecordHistory(h, uid, msg, memoryLimit), memoryLimit)
  {}

  /** Every turn of `ts` was written by the user. */
  predicate AllUser(ts: seq<Turn>) {
    forall i :: 0 <= i < |ts| ==> ts[i].role == "user"
  }

  /** Every stored turn was written by the user. */
  predicate OnlyUserTurns(h: Histories) {
    forall u :: u in h ==> AllUser(h[u])
  }

  /** Recording never stores anything but user turns: the agent's replies
      never enter a history. */
  lemma RecordOnlyUserTurns(h: Histories, uid: string, msg: string, memoryLimit: int)
    requires OnlyUserTurns(h)
    ensures OnlyUserTurns(RecordHistory(h, uid, msg, memoryLimit))
  {
    var r := RecordHistory(h, uid, msg, memoryLimit);
    var appended := Lookup(h, uid) + [UserTurn(msg)];
    assert AllUser(appended) by {
      assert AllUser(Lookup(h, uid));
      forall i | 0 <= i < |appended|
        ensures appended[i].role == "user"
      {
        if i < |Lookup(h, uid)| {
          assert appended[i] == Lookup(h, uid)[i];
        }
      }
    }
    SuffixAllUser(appended, |appended| - |r[uid]|);
  }

  /** Dropping the oldest turns keeps a history all-user. */
  lemma SuffixAllUser(ts: seq<Turn>, k: nat)
    requires k <= |ts| && AllUser(ts)
    ensures AllUser(ts[k..])
  {
    forall i | 0 <= i < |ts[k..]|
      ensures ts[k..][i].role == "user"
    {
      assert ts[k..][i] == ts[k + i];
    }
  }
}

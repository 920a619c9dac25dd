/** What the server answers to each request about the images of a draft, and what its table holds then. */
module DraftServer {
  import opened DraftImages
  import opened DraftBanner
  import opened DraftTasks

  /** The rows keep their keys, bodies, places and lives; only marks may move. */
  predicate OnlyMarks(before: seq<Stored>, after: seq<Stored>) {
    |after| >= |before| && forall i :: 0 <= i < |before| ==> after[i] == before[i].(primary := after[i].primary)
  }

  predicate Known(stored: seq<Stored>, key: nat) { exists i :: 0 <= i < |stored| && stored[i].key == key }

  /** A key is used by at most one row. */
  predicate KeysOnce(stored: seq<Stored>) {
    forall i, j :: 0 <= i < j < |stored| ==> stored[i].key != stored[j].key
  }

  /** An upload under a known key: the row of that key if the request is the same, whether or not the image was deleted
      since, and otherwise an error; nothing is stored. */
  lemma ReplayIs(stored: seq<Stored>, key: nat, body: Body, i: nat)
    requires KeysOnce(stored) && i < |stored| && stored[i].key == key
    ensures ServerStored(stored, PostImage(key, body)) == stored
    ensures ServerAnswer(stored, PostImage(key, body)) == if stored[i].body == body then Kept(i) else Refused
  {
  }

  /** An upload under a new key: refused over twelve live images; else one more row at the end, with the key and the
      request, in the place asked for, or the twelfth beyond that. It is primary when marked, or when no live row is; and
      then no other row is. */
  lemma NewImageIs(stored: seq<Stored>, key: nat, body: Body)
    requires !Known(stored, key)
    ensures
      var after, n := ServerStored(stored, PostImage(key, body)), |stored|;
      if |LiveIds(stored)| >= 12 then after == stored && ServerAnswer(stored, PostImage(key, body)) == Refused
      else
        && ServerAnswer(stored, PostImage(key, body)) == Kept(n) && |after| == n + 1 && OnlyMarks(stored, after)
        && after[n].key == key && after[n].body == body && after[n].live
        && after[n].sort == (if body.sortOrder <= 11 then body.sortOrder else 11)
        && (after[n].primary <==> body.isPrimary || forall i :: 0 <= i < n && stored[i].live ==> !stored[i].primary)
        && (forall i :: 0 <= i < n ==> (after[i].primary <==> stored[i].primary && !after[n].primary))
  {
    assert Find(stored, key, |stored|) < 0;
    if LiveIds(stored) == {} { assert forall i :: 0 <= i < |stored| && stored[i].live ==> i in LiveIds(stored); }
  }

  /** An order is accepted exactly when it lists each live image once. Then the k-th listed image has place k and every mark
      is gone but that of the primary image. */
  lemma OrderIs(stored: seq<Stored>, ids: seq<nat>, primary: nat)
    ensures
      var after := ServerStored(stored, PatchOrder(ids, primary));
      if ListsLive(stored, ids) then
        && ServerAnswer(stored, PatchOrder(ids, primary)) == Done && |after| == |stored|
        && (forall k :: 0 <= k < |ids| ==> after[ids[k]] == stored[ids[k]].(sort := k, primary := ids[k] == primary))
        && (forall i :: 0 <= i < |stored| && !stored[i].live ==> after[i] == stored[i].(primary := false))
      else after == stored && ServerAnswer(stored, PatchOrder(ids, primary)) == Refused
  {
    ListedIff(stored, ids);
    if ListsLive(stored, ids) {
      var after := Ordered(stored, ids, primary);
      forall k | 0 <= k < |ids| ensures after[ids[k]] == stored[ids[k]].(sort := k, primary := ids[k] == primary) {
        assert ids[k] in ids && PositionIn(ids, ids[k]) == k;
      }
    }
  }

  /** The list names live images only, each of them, and none twice. */
  ghost predicate ListsLive(stored: seq<Stored>, ids: seq<nat>) {
    && (forall k :: 0 <= k < |ids| ==> ids[k] < |stored| && stored[ids[k]].live)
    && (forall i :: 0 <= i < |stored| && stored[i].live ==> i in ids)
    && (forall j, k :: 0 <= j < k < |ids| ==> ids[j] != ids[k])
  }

  lemma ListedIff(stored: seq<Stored>, ids: seq<nat>)
    ensures OrderAccepted(stored, ids) <==> ListsLive(stored, ids)
  {
    if DistinctIds(ids) { IdSetSize(ids); }
    if ListsLive(stored, ids) { assert LiveIds(stored) == IdSet(ids); }
    if OrderAccepted(stored, ids) {
      assert IdSet(ids) <= LiveIds(stored);
      SubsetOfSameSize(IdSet(ids), LiveIds(stored));
      assert forall i :: 0 <= i < |stored| && stored[i].live ==> i in IdSet(ids);
    }
  }

  /** The live row that is shown first: the least place, and the oldest of those. */
  predicate First(stored: seq<Stored>, i: nat) {
    && i < |stored| && stored[i].live
    && forall j :: 0 <= j < |stored| && stored[j].live ==>
         stored[i].sort < stored[j].sort || (stored[i].sort == stored[j].sort && i <= j)
  }

  lemma {:induction false} FirstLiveIs(stored: seq<Stored>, k: nat)
    requires k <= |stored|
    ensures FirstLive(stored, k) < 0 ==> forall j :: 0 <= j < k ==> !stored[j].live
    ensures
      var i := FirstLive(stored, k);
      i >= 0 ==> stored[i].live && forall j :: 0 <= j < k && stored[j].live ==>
        stored[i].sort < stored[j].sort || (stored[i].sort == stored[j].sort && i <= j)
  {
    if k > 0 { FirstLiveIs(stored, k - 1); }
  }

  /** A deletion is done exactly when the image is there. It takes out that image alone, and hands a mark it had to the one
      that is first then. */
  lemma DeletionIs(stored: seq<Stored>, id: nat)
    ensures
      var after := ServerStored(stored, DropImage(id));
      if id < |stored| && stored[id].live then
        && ServerAnswer(stored, DropImage(id)) == Done && |after| == |stored|
        && after[id] == stored[id].(live := false, primary := false)
        && (forall i :: 0 <= i < |stored| && i != id ==>
              after[i] == stored[i].(primary := stored[i].primary || (stored[id].primary && First(after, i))))
      else after == stored && ServerAnswer(stored, DropImage(id)) == Refused
  {
    if id < |stored| && stored[id].live {
      var without := stored[id := stored[id].(live := false, primary := false)];
      FirstLiveIs(without, |without|);
    }
  }

  /** The check counts the live images; drafts are saved and files read without touching them. */
  lemma OthersAre(stored: seq<Stored>)
    ensures ServerAnswer(stored, FetchDeal) == Listed(|set i: nat | i < |stored| && stored[i].live|)
    ensures ServerStored(stored, FetchDeal) == ServerStored(stored, SaveDraft) == ServerStored(stored, ReadFiles) == stored
    ensures ServerAnswer(stored, SaveDraft) == ServerAnswer(stored, ReadFiles) == Done
  {
  }
}

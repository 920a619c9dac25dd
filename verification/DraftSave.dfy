/** The upload loop as it is written: one request at a time, each answer recorded before the next request. */
module DraftSave {
  import opened Text
  import opened Gallery
  import opened DraftImages
  import opened DraftImageRuns

  class SellerDraft {
    var images: seq<Image>
    var nextKey: nat
    var stored: seq<Stored>
    var acked: set<nat>
    var resent: nat

    function State(): Draft
      reads this
    {
      Draft(Store(images, nextKey, true), stored, acked, resent)
    }

    constructor (d: Draft)
      requires d.g.hasDraft
      ensures State() == d
    {
      images, nextKey, stored, acked, resent := d.g.images, d.g.nextKey, d.stored, d.acked, d.resent;
    }

    /** One POST: what the server does, and what the client hears. */
    method PostImage(key: nat, body: Body, fate: Fate) returns (reply: Option<ImageAnswer>)
      modifies this`stored, this`resent
      ensures resent == old(resent) + if key in acked then 1 else 0
      ensures stored == if Processed(fate) then StoreImage(old(stored), key, body) else old(stored)
      ensures reply == if fate == Answered then Some(AnswerTo(old(stored), key, body)) else None
    {
      if key in acked { resent := resent + 1; }
      if !Processed(fate) { return None; }
      var answer := AnswerTo(stored, key, body);
      stored := StoreImage(stored, key, body);
      return if fate == Answered then Some(answer) else None;
    }

    /** One round: nothing for an image that has its id. */
    method UploadOne(index: nat, fate: Fate) returns (ok: bool)
      requires index < |images|
      modifies this
      ensures Pass(State(), ok) == Upload(old(State()), index, fate)
    {
      var image := images[index];
      if image.persistedId.Some? { return true; }
      var reply := PostImage(KeyOf(image), BodyOf(image, index), fate);
      if reply.None? || !reply.value.Saved? { return false; }
      var normalized := NormalizeSellerImages(images[index := Acknowledged(image, reply.value.id)], nextKey);
      acked, images, nextKey := acked + {KeyOf(image)}, normalized, nextKey + MAX_IMAGES;
      return true;
    }

    /** Uploads what is not stored yet, in order; gives up at the first failure. */
    method UploadImages(fates: seq<Fate>) returns (ok: bool)
      requires Consistent(State())
      modifies this
      ensures Pass(State(), ok) == UploadFirst(old(State()), |old(images)|, fates)
    {
      ghost var start := State();
      var index := 0;
      while index < |images|
        invariant 0 <= index <= |images| == |start.g.images|
        invariant UploadFirst(start, index, fates) == Pass(State(), true)
      {
        RoundOf(start, State(), index, fates);
        var done := UploadOne(index, FateAt(fates, index));
        assert UploadFirst(start, index + 1, fates) == Pass(State(), done);
        index := index + 1;
        if !done {
          StopsForGood(start, index, |start.g.images|, fates);
          return false;
        }
      }
      return true;
    }
  }

  lemma RoundOf(start: Draft, now: Draft, k: nat, fates: seq<Fate>)
    requires Consistent(start) && k < |start.g.images| && UploadFirst(start, k, fates) == Pass(now, true)
    ensures k < |now.g.images| && UploadFirst(start, k + 1, fates) == Upload(now, k, FateAt(fates, k))
    ensures |Upload(now, k, FateAt(fates, k)).d.g.images| == |start.g.images|
  {
    UploadFirstConsistent(start, k, fates);
    UploadConsistent(now, k, FateAt(fates, k));
  }
}

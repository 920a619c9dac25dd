/**
  Runs of the seller form that go wrong: each is a chain of events from the opened form, ending in a world that shows
  what a second submit, a deletion, a selection, a choice of primary or a late request does to a submit that is running.
*/
module DraftRaces {
  import opened Text
  import opened Gallery
  import opened DraftImages
  import opened DraftBanner
  import opened DraftTasks
  import opened DraftTaskRuns
  import opened DraftFresh
  import opened DraftRepeats
  import opened DraftOverlaps
  import opened DraftPlaces

  const OPEN := World(Draft(Store([], 0, false), [], {}, 0), [], [], map[], false)

  /** Some run of plain events leads there from the opened form. */
  ghost predicate Reached(w: World) {
    exists events :: (forall k :: 0 <= k < |events| ==> PlainEvent(events[k])) && Run(OPEN, events) == w
  }

  lemma ReachedOpen()
    ensures Reached(OPEN) && Opened(OPEN)
  {
    assert Run(OPEN, []) == OPEN;
  }

  lemma ReachedStep(w: World, e: Event, after: World)
    requires Reached(w) && PlainEvent(e) && Apply(w, e) == after
    ensures Reached(after)
  {
    var events :| (forall k :: 0 <= k < |events| ==> PlainEvent(events[k])) && Run(OPEN, events) == w;
    var more := events + [e];
    assert more[..|more| - 1] == events;
    assert Run(OPEN, more) == after;
  }

  // ---------------------------------------------------------------- two pictures

  const RAW_A := Image("d", "f", "m", 1, false, None, Missing, None)
  const RAW_B := Image("e", "f", "m", 1, false, None, Missing, None)
  const A0 := Image("d", "f", "m", 1, true, None, Pending, Some(0))
  const B0 := Image("e", "f", "m", 1, false, None, Pending, Some(1))
  const A1 := Image("d", "f", "m", 1, true, Some(0), Uploaded, Some(0))
  const B1 := Image("e", "f", "m", 1, false, Some(1), Uploaded, Some(1))
  const BODY_A := Body("d", "f", true, 0)
  const BODY_B := Body("e", "f", false, 1)
  const ROW_A := Stored(0, BODY_A, true, 0, true)
  const ROW_B := Stored(1, BODY_B, true, 1, false)
  const CONTENTS := map[0 := Content("d", "f"), 1 := Content("e", "f")]
  const ADDED := Task(Finished(false), ReadFiles, Some(Done))

  function Picked(): World { World(Draft(Store([A0, B0], 5, false), [], {}, 0), [ADDED], [], CONTENTS, false) }

  lemma NormalPair(g: Store)
    requires g.images == [] && g.nextKey == 0
    ensures Do(g, Append([RAW_A, RAW_B])) == g.(images := [A0, B0], nextKey := 5)
  {
    var picked := [RAW_A, RAW_B];
    assert Fitting(g, picked) == picked && g.images + picked == picked;
    NormalizeAt(picked, 0, 0);
    NormalizeAt(picked, 0, 1);
    assert Normalize(picked, 0) == [A0, B0];
  }

  lemma LearnPair()
    ensures Learn(map[], [A0, B0]) == CONTENTS
  {
    assert [A0, B0][..1] == [A0] && [A0][..0] == [];
    assert Learn(map[], [A0]) == map[0 := Content("d", "f")];
  }

  function Reading(answer: Option<Answer>): World {
    OPEN.(tasks := [Task(Adding([], [RAW_A, RAW_B]), ReadFiles, answer)])
  }

  lemma StartsReading()
    ensures Apply(OPEN, StartAdding([RAW_A, RAW_B])) == Reading(None)
    ensures Apply(Reading(None), Serve(0)) == Reading(Some(Done))
  {
    assert Fitting(OPEN.d.g, [RAW_A, RAW_B]) == [RAW_A, RAW_B];
  }

  lemma WritesPair()
    ensures Apply(Reading(Some(Done)), Deliver(0)) == Picked()
  {
    NormalPair(OPEN.d.g);
    LearnPair();
    assert OPEN.d.g.(images := []) == OPEN.d.g;
    assert WriteBack(Reading(Some(Done)), [], Append([RAW_A, RAW_B])).d == Picked().d;
  }

  lemma PickedReached()
    ensures Reached(Picked())
  {
    ReachedOpen();
    StartsReading();
    WritesPair();
    ReachedStep(OPEN, StartAdding([RAW_A, RAW_B]), Reading(None));
    ReachedStep(Reading(None), Serve(0), Reading(Some(Done)));
    ReachedStep(Reading(Some(Done)), Deliver(0), Picked());
  }

  // ---------------------------------------------------------------- a submit, request by request

  /** The worlds of a submit as task 1, with other tasks after it. */
  function At(images: seq<Image>, nextKey: nat, hasDraft: bool, stored: seq<Stored>, acked: set<nat>,
              job: Job, r: Request, answer: Option<Answer>, rest: seq<Task>): World
  {
    World(Draft(Store(images, nextKey, hasDraft), stored, acked, 0),
          [ADDED, Task(job, r, answer)] + rest, [], CONTENTS, false)
  }

  function Drafted(answer: Option<Answer>, rest: seq<Task>): World {
    At([A0, B0], 5, false, [], {}, Saving([A0, B0], Drafting(true)), SaveDraft, answer, rest)
  }

  function SendingA(answer: Option<Answer>, rest: seq<Task>): World {
    At([A0, B0], 5, true, if answer.Some? then [ROW_A] else [], {},
       Saving([A0, B0], Uploading(0)), PostImage(0, BODY_A), answer, rest)
  }

  function SendingB(answer: Option<Answer>, rest: seq<Task>): World {
    At([A1, B0], 10, true, if answer.Some? then [ROW_A, ROW_B] else [ROW_A], {0},
       Saving([A1, B0], Uploading(1)), PostImage(1, BODY_B), answer, rest)
  }

  function OrderSent(answer: Option<Answer>, rest: seq<Task>): World {
    At([A1, B1], 15, true, [ROW_A, ROW_B], {0, 1}, Saving([A1, B1], Ordering), PatchOrder([0, 1], 0), answer, rest)
  }

  function Asked(answer: Option<Answer>, rest: seq<Task>): World {
    At([A1, B1], 15, true, [ROW_A, ROW_B], {0, 1}, Saving([A1, B1], Checking), FetchDeal, answer, rest)
  }

  lemma LiveOfRows()
    ensures LiveIds([]) == {} && LiveIds([ROW_A]) == {0} && LiveIds([ROW_A, ROW_B]) == {0, 1}
    ensures |LiveIds([ROW_A])| == 1 && |LiveIds([ROW_A, ROW_B])| == 2
  {
    assert {0, 1} == {0} + {1};
  }

  lemma StoreA()
    ensures AnswerTo([], 0, BODY_A) == Saved(0) && StoreImage([], 0, BODY_A) == [ROW_A]
  {
    LiveOfRows();
  }

  lemma StoreB()
    ensures AnswerTo([ROW_A], 1, BODY_B) == Saved(1) && StoreImage([ROW_A], 1, BODY_B) == [ROW_A, ROW_B]
  {
    LiveOfRows();
    assert [ROW_A][0].live && [ROW_A][0].primary && HasPrimary([ROW_A]);
    assert Find([ROW_A], 1, 1) == Find([ROW_A], 1, 0) == -1;
  }

  lemma OrderIds()
    ensures AllPersisted([A1, B1]) && Ids([A1, B1]) == [0, 1] && PrimaryOf([A1, B1]) == 0
  {
  }

  lemma OrderAB()
    ensures OrderAccepted([ROW_A, ROW_B], [0, 1]) && Ordered([ROW_A, ROW_B], [0, 1], 0) == [ROW_A, ROW_B]
    ensures AllPersisted([A1, B1]) && Ids([A1, B1]) == [0, 1] && PrimaryOf([A1, B1]) == 0
  {
    OrderIds();
    LiveOfRows();
    assert [0, 1][0] == 0 && [0, 1][1] == 1 && [0, 1][1..] == [1];
    assert PositionIn([0, 1], 0) == 0 && PositionIn([0, 1], 1) == 1 + PositionIn([1], 1) == 1;
    assert 0 in [0, 1] && 1 in [0, 1];
  }

  lemma WrittenPairs(g: Store)
    ensures Write(g, [A1, B0]).images == [A1, B0] && Write(g, [A1, B1]).images == [A1, B1]
      && Write(g, [A0, B0]).images == [A0, B0]
  {
    assert OnlyPrimary([A1, B0], 0) && OnlyPrimary([A1, B1], 0) && OnlyPrimary([A0, B0], 0);
    NormalizeFixedPoints([A1, B0], g.nextKey);
    NormalizeFixedPoints([A1, B1], g.nextKey);
    NormalizeFixedPoints([A0, B0], g.nextKey);
  }

  lemma ServesDraft(rest: seq<Task>)
    ensures Apply(Drafted(None, rest), Serve(1)) == Drafted(Some(Done), rest)
    ensures Apply(Drafted(Some(Done), rest), Deliver(1)) == SendingA(None, rest)
  {
    assert NextWithoutId([A0, B0], 0) == 0;
  }

  lemma ServesA(rest: seq<Task>)
    ensures Apply(SendingA(None, rest), Serve(1)) == SendingA(Some(Kept(0)), rest)
  {
    StoreA();
  }

  lemma DeliversA(rest: seq<Task>)
    ensures Apply(SendingA(Some(Kept(0)), rest), Deliver(1)) == SendingB(None, rest)
  {
    var w := SendingA(Some(Kept(0)), rest);
    WrittenPairs(w.d.g);
    assert [A0, B0][0 := Acknowledged(A0, 0)] == [A1, B0];
    assert NextWithoutId([A1, B0], 1) == 1;
    assert {} + {0} == {0};
  }

  lemma ServesB(rest: seq<Task>)
    ensures Apply(SendingB(None, rest), Serve(1)) == SendingB(Some(Kept(1)), rest)
  {
    StoreB();
  }

  lemma DeliversB(rest: seq<Task>)
    ensures Apply(SendingB(Some(Kept(1)), rest), Deliver(1)) == OrderSent(None, rest)
  {
    var w := SendingB(Some(Kept(1)), rest);
    WrittenPairs(w.d.g);
    OrderIds();
    assert [A1, B0][1 := Acknowledged(B0, 1)] == [A1, B1];
    assert NextWithoutId([A1, B1], 2) == 2;
    assert {0} + {1} == {0, 1};
  }

  lemma ServesOrder(rest: seq<Task>)
    ensures Apply(OrderSent(None, rest), Serve(1)) == OrderSent(Some(Done), rest)
    ensures Apply(OrderSent(Some(Done), rest), Deliver(1)) == Asked(None, rest)
  {
    OrderAB();
  }

  lemma ServesCheck(rest: seq<Task>)
    ensures Apply(Asked(None, rest), Serve(1)) == Asked(Some(Listed(2)), rest)
  {
    LiveOfRows();
  }

  lemma UpToCheck(rest: seq<Task>)
    requires Reached(Drafted(None, rest))
    ensures Reached(SendingA(None, rest)) && Reached(SendingB(None, rest)) && Reached(OrderSent(None, rest))
      && Reached(Asked(None, rest))
  {
    ServesDraft(rest);
    ReachedStep(Drafted(None, rest), Serve(1), Drafted(Some(Done), rest));
    ReachedStep(Drafted(Some(Done), rest), Deliver(1), SendingA(None, rest));
    ServesA(rest);
    ReachedStep(SendingA(None, rest), Serve(1), SendingA(Some(Kept(0)), rest));
    DeliversA(rest);
    ReachedStep(SendingA(Some(Kept(0)), rest), Deliver(1), SendingB(None, rest));
    ServesB(rest);
    ReachedStep(SendingB(None, rest), Serve(1), SendingB(Some(Kept(1)), rest));
    DeliversB(rest);
    ReachedStep(SendingB(Some(Kept(1)), rest), Deliver(1), OrderSent(None, rest));
    ServesOrder(rest);
    ReachedStep(OrderSent(None, rest), Serve(1), OrderSent(Some(Done), rest));
    ReachedStep(OrderSent(Some(Done), rest), Deliver(1), Asked(None, rest));
  }

  // ---------------------------------------------------------------- a second submit

  const SECOND_DRAFT := Task(Saving([A0, B0], Drafting(true)), SaveDraft, None)
  const SECOND_DRAFTED := Task(Saving([A0, B0], Drafting(true)), SaveDraft, Some(Done))
  const RESENDS_A := Task(Saving([A0, B0], Uploading(0)), PostImage(0, BODY_A), None)

  lemma FirstStarted()
    ensures Reached(Drafted(None, []))
  {
    PickedReached();
    assert Picked().tasks + [Task(Saving([A0, B0], Drafting(true)), SaveDraft, None)] == Drafted(None, []).tasks;
    ReachedStep(Picked(), StartSaving, Drafted(None, []));
  }

  lemma SecondStarted()
    ensures Reached(Drafted(None, [SECOND_DRAFT]))
  {
    FirstStarted();
    assert Drafted(None, []).tasks + [SECOND_DRAFT] == Drafted(None, [SECOND_DRAFT]).tasks;
    ReachedStep(Drafted(None, []), StartSaving, Drafted(None, [SECOND_DRAFT]));
  }

  /** The submit is pressed while another one waits for its draft: a run that goes on from there sends a key again that
      was acknowledged. */
  lemma SecondSubmitResends()
    ensures
      var w := Drafted(None, []);
      Reached(w) && !w.closed && w.d.resent == 0 && Willing(w) && !FreshStart(w) && CanRepeat(Apply(w, StartSaving), 0)
  {
    var w := Drafted(None, []);
    FirstStarted();
    FirstDue([A0, B0], 0);
    assert Stale(w, 0) by { assert KeyOf(w.d.g.images[0]) in Due(w.tasks[1].job); }
    RoomAccepts([], [A0, B0], 0, 1);
    assert LearntBefore(w, 0, 1, 0);
    StaleRepeats(w, 0);
    assert KeyOf(w.d.g.images[0]) in DueFrom(w.d.g.images, 0) && KeyOf(w.d.g.images[0]) in Due(w.tasks[1].job);
  }

  lemma SecondDrafted(w: World, after: World)
    requires Reached(w) && |w.tasks| == 3 && w.tasks[2] == SECOND_DRAFT
      && after == w.(tasks := w.tasks[2 := SECOND_DRAFTED])
    ensures Reached(after)
  {
    ReachedStep(w, Serve(2), after);
  }

  lemma SecondGoesOn(w: World, after: World)
    requires Reached(w) && |w.tasks| == 3 && w.tasks[2] == SECOND_DRAFTED && 0 in w.d.acked && w.d.g.hasDraft
    requires after == w.(tasks := w.tasks[2 := RESENDS_A], d := w.d.(resent := w.d.resent + 1))
    ensures Reached(after)
  {
    assert NextWithoutId([A0, B0], 0) == 0;
    assert w.d.g.(hasDraft := true) == w.d.g;
    ReachedStep(w, Deliver(2), after);
  }

  /** A gallery with an image that no row shows. */
  lemma NotHeld(d: Draft, i: nat)
    requires i < |d.g.images| && forall j :: 0 <= j < |d.stored| ==> !RowShows(d, i, j)
    ensures !Held(d) && !Mirrored(d)
  {
    assert !HeldAs(d, i);
    if Mirrored(d) { assert StoredAs(d, i) && RowShows(d, i, d.g.images[i].persistedId.value); }
  }

  function Announced(images: seq<Image>, nextKey: nat, stored: seq<Stored>, resent: nat, rest: seq<Task>,
                     contents: map<nat, Content>): World
  {
    World(Draft(Store(images, nextKey, false), stored, {0, 1}, resent),
          [ADDED, Task(Finished(true), FetchDeal, Some(Listed(2)))] + rest, [], contents, true)
  }

  const RESENDS_B := Task(Saving([A1, B0], Uploading(1)), PostImage(1, BODY_B), None)

  function Overwritten(answer: Option<Answer>): World {
    World(Draft(Store([A1, B0], 20, true), [ROW_A, ROW_B], {0, 1}, 2),
          [ADDED, Task(Saving([A1, B1], Checking), FetchDeal, answer), RESENDS_B], [], CONTENTS, false)
  }

  lemma ReplayOfA()
    ensures AnswerTo([ROW_A, ROW_B], 0, BODY_A) == Saved(0) && StoreImage([ROW_A, ROW_B], 0, BODY_A) == [ROW_A, ROW_B]
  {
    assert Find([ROW_A, ROW_B], 0, 2) == Find([ROW_A, ROW_B], 0, 1) == 0;
  }

  function Resending(answer: Option<Answer>): World {
    var second := Task(Saving([A0, B0], Uploading(0)), PostImage(0, BODY_A), answer);
    Asked(None, [second]).(d := Draft(Store([A1, B1], 15, true), [ROW_A, ROW_B], {0, 1}, 1))
  }

  lemma ReplayServed()
    ensures Apply(Resending(None), Serve(2)) == Resending(Some(Kept(0)))
  {
    ReplayOfA();
  }

  lemma ReplayDelivered()
    ensures Apply(Resending(Some(Kept(0))), Deliver(2)) == Overwritten(None)
  {
    var w := Resending(Some(Kept(0)));
    WrittenPairs(w.d.g);
    assert [A0, B0][0 := Acknowledged(A0, 0)] == [A1, B0];
    assert NextWithoutId([A1, B0], 1) == 1 && {0, 1} + {0} == {0, 1};
  }

  lemma SecondWaits()
    ensures Reached(Asked(None, [SECOND_DRAFT])) && Reached(SendingB(None, [SECOND_DRAFT]))
  {
    SecondStarted();
    UpToCheck([SECOND_DRAFT]);
  }

  lemma SecondDraftedLate()
    ensures Reached(Asked(None, [SECOND_DRAFTED]))
  {
    SecondWaits();
    var w := Asked(None, [SECOND_DRAFT]);
    assert w.tasks[2] == SECOND_DRAFT && w.tasks[2 := SECOND_DRAFTED] == Asked(None, [SECOND_DRAFTED]).tasks;
    SecondDrafted(w, Asked(None, [SECOND_DRAFTED]));
  }

  lemma ResendingReached()
    ensures Reached(Resending(None))
  {
    SecondDraftedLate();
    var w := Asked(None, [SECOND_DRAFTED]);
    assert w.tasks[2] == SECOND_DRAFTED && w.tasks[2 := RESENDS_A] == Resending(None).tasks;
    SecondGoesOn(w, Resending(None));
  }

  lemma SecondWritesBack()
    ensures Reached(Overwritten(None))
  {
    ResendingReached();
    ReplayServed();
    ReplayDelivered();
    ReachedStep(Resending(None), Serve(2), Resending(Some(Kept(0))));
    ReachedStep(Resending(Some(Kept(0))), Deliver(2), Overwritten(None));
  }

  const TAKEN_ID := Announced([A1, B0], 20, [ROW_A, ROW_B], 2, [RESENDS_B], CONTENTS)

  lemma OverwrittenChecked()
    ensures Apply(Overwritten(None), Serve(1)) == Overwritten(Some(Listed(2)))
    ensures Apply(Overwritten(Some(Listed(2))), Deliver(1)) == TAKEN_ID
  {
    LiveOfRows();
  }

  /** The server holds both images; the form has lost the second one's id. */
  lemma TakenIdIsHeld()
    ensures Held(TAKEN_ID.d) && !Mirrored(TAKEN_ID.d)
  {
    var d := TAKEN_ID.d;
    assert d.stored == [ROW_A, ROW_B] && d.g.images == [A1, B0];
    assert !StoredAs(d, 1);
    assert RowShows(d, 0, 0) && RowShows(d, 1, 1);
    assert HeldAs(d, 0) && HeldAs(d, 1) && Shown(d, 0) && Shown(d, 1);
  }

  /** And the banner of the first is set while the form, where the second has written its copy back, has lost an id. The
      server holds the whole gallery. */
  lemma SecondSubmitTakesId()
    ensures Reached(TAKEN_ID) && TAKEN_ID.closed && !Mirrored(TAKEN_ID.d) && Held(TAKEN_ID.d)
  {
    SecondWritesBack();
    OverwrittenChecked();
    ReachedStep(Overwritten(None), Serve(1), Overwritten(Some(Listed(2))));
    ReachedStep(Overwritten(Some(Listed(2))), Deliver(1), TAKEN_ID);
    TakenIdIsHeld();
  }

  // ---------------------------------------------------------------- a deletion

  const B_LEFT := Image("e", "f", "m", 1, true, None, Pending, Some(1))
  const DROPPED_A := Stored(0, BODY_A, false, 0, false)
  const ROW_B_PRIMARY := Stored(1, BODY_B, true, 1, true)
  const DROPPING := Task(Deleting([A1, B0], 0), DropImage(0), None)
  const DROPPED := Task(Deleting([A1, B0], 0), DropImage(0), Some(Done))

  lemma DropA()
    ensures DeleteImage([ROW_A, ROW_B], 0) == [DROPPED_A, ROW_B_PRIMARY]
  {
    var without := [DROPPED_A, ROW_B];
    assert [ROW_A, ROW_B][0 := ROW_A.(live := false, primary := false)] == without;
    assert FirstLive(without, 0) == -1 && FirstLive(without, 1) == -1 && FirstLive(without, 2) == 1;
  }

  lemma RemoveA(g: Store)
    requires g.images == [A1, B0]
    ensures Do(g, Remove(0, true)).images == [B_LEFT] && Do(g, Remove(0, true)).nextKey == g.nextKey + 5
    ensures Do(g, Remove(0, true)).hasDraft == g.hasDraft
  {
    assert RemoveAt([A1, B0], 0) == [B0];
    NormalizeAt([B0], g.nextKey, 0);
    assert Normalize([B0], g.nextKey) == [B_LEFT];
  }

  const ORDERING := Task(Saving([A1, B1], Ordering), PatchOrder([0, 1], 0), None)
  const DROP_DONE := Task(Finished(false), DropImage(0), Some(Done))
  const ORDER_AB := PatchOrder([0, 1], 0)

  /** After the deletion has written its copy back: the second image has lost its id. */
  const LEFT :=
    World(Draft(Store([B_LEFT], 20, true), [DROPPED_A, ROW_B_PRIMARY], {0, 1}, 0),
          [ADDED, ORDERING, DROP_DONE], [], CONTENTS, false)

  lemma DeletionStarts()
    ensures Reached(OrderSent(None, [DROPPING]))
  {
    CheckReached();
    assert SendingB(None, []).tasks + [DROPPING] == SendingB(None, [DROPPING]).tasks;
    ReachedStep(SendingB(None, []), StartDeleting(0), SendingB(None, [DROPPING]));
    ServesB([DROPPING]);
    ReachedStep(SendingB(None, [DROPPING]), Serve(1), SendingB(Some(Kept(1)), [DROPPING]));
    DeliversB([DROPPING]);
    ReachedStep(SendingB(Some(Kept(1)), [DROPPING]), Deliver(1), OrderSent(None, [DROPPING]));
  }

  /** A submit alone, up to its check. */
  lemma CheckReached()
    ensures Reached(SendingA(None, [])) && Reached(SendingB(None, [])) && Reached(OrderSent(None, []))
      && Reached(Asked(None, []))
  {
    FirstStarted();
    UpToCheck([]);
  }

  lemma LearnLeft(contents: map<nat, Content>)
    requires 1 in contents
    ensures Learn(contents, [B_LEFT]) == contents
  {
    assert [B_LEFT][..0] == [];
  }

  function Dropped(): World {
    World(Draft(Store([A1, B1], 15, true), [DROPPED_A, ROW_B_PRIMARY], {0, 1}, 0),
          [ADDED, ORDERING, DROPPED], [], CONTENTS, false)
  }

  lemma DropServed()
    ensures Apply(OrderSent(None, [DROPPING]), Serve(2)) == Dropped()
  {
    DropA();
  }

  lemma DropDelivered()
    ensures Apply(Dropped(), Deliver(2)) == LEFT
  {
    RemoveA(Dropped().d.g.(images := [A1, B0]));
    LearnLeft(CONTENTS);
    assert WriteBack(Dropped(), [A1, B0], Remove(0, true)).d.g == Store([B_LEFT], 20, true);
  }

  lemma DeletionWritesBack()
    ensures Reached(LEFT)
  {
    DeletionStarts();
    DropServed();
    DropDelivered();
    ReachedStep(OrderSent(None, [DROPPING]), Serve(2), Dropped());
    ReachedStep(Dropped(), Deliver(2), LEFT);
  }

  /** A deletion that is answered during a submit takes the other image's new id away, and the next submit can send it
      again. */
  lemma DeletionResends()
    ensures Reached(LEFT) && !LEFT.closed && LEFT.d.resent == 0 && CanRepeat(Apply(LEFT, StartSaving), 0)
  {
    DeletionWritesBack();
    StaleRepeats(LEFT, 0);
  }

  // ---------------------------------------------------------------- a selection of files

  const RAW_C := Image("g", "f", "m", 1, false, None, Missing, None)
  const C_ADDED := Image("g", "f", "m", 1, false, None, Pending, Some(17))
  const C_LATE := Image("g", "f", "m", 1, false, None, Pending, Some(12))
  const READS_C := Task(Adding([A1, B1], [RAW_C]), ReadFiles, None)
  const HAS_C := Task(Adding([A1, B1], [RAW_C]), ReadFiles, Some(Done))
  const DONE_C := Task(Finished(false), ReadFiles, Some(Done))
  const MORE := map[0 := Content("d", "f"), 1 := Content("e", "f"), 17 := Content("g", "f")]
  const MORE_LATE := map[0 := Content("d", "f"), 1 := Content("e", "f"), 12 := Content("g", "f")]

  lemma LearnThird(images: seq<Image>, key: nat, c: Image)
    requires |images| == 2 && KeyOf(images[0]) == 0 && KeyOf(images[1]) == 1 && c.key == Some(key) && key > 1
    requires c.dataUrl == "g" && c.filename == "f"
    ensures Learn(CONTENTS, images + [c]) == CONTENTS[key := Content("g", "f")]
  {
    var all := images + [c];
    assert all[..2] == images && images[..1] == [images[0]] && [images[0]][..0] == [];
    assert Learn(CONTENTS, [images[0]]) == CONTENTS;
  }

  lemma ThirdAdded(g: Store, c: Image)
    requires g.images == [A1, B1] || g.images == [A0, B0]
    requires c == RAW_C.(key := Some(g.nextKey + 2), uploadState := Pending)
    ensures Do(g, Append([RAW_C])) == g.(images := g.images + [c], nextKey := g.nextKey + 5)
  {
    var all := g.images + [RAW_C];
    assert Fitting(g, [RAW_C]) == [RAW_C];
    assert OnlyPrimary(g.images, 0);
    JoinedPrimary(g.images, [RAW_C], 0);
    NormalizeAt(all, g.nextKey, 0);
    NormalizeAt(all, g.nextKey, 1);
    NormalizeAt(all, g.nextKey, 2);
    assert Normalize(all, g.nextKey) == g.images + [c];
  }

  function AskedWithC(answer: Option<Answer>): World {
    World(Draft(Store([A1, B1, C_ADDED], 20, true), [ROW_A, ROW_B], {0, 1}, 0),
          [ADDED, Task(Saving([A1, B1], Checking), FetchDeal, answer), DONE_C], [], MORE, false)
  }

  lemma ReadsDuringCheck()
    ensures Apply(Asked(None, []), StartAdding([RAW_C])) == Asked(None, [READS_C])
    ensures Apply(Asked(None, [READS_C]), Serve(2)) == Asked(None, [HAS_C])
  {
    assert Fitting(Asked(None, []).d.g, [RAW_C]) == [RAW_C];
    assert Asked(None, []).tasks + [READS_C] == Asked(None, [READS_C]).tasks;
    assert Asked(None, [READS_C]).tasks[2 := HAS_C] == Asked(None, [HAS_C]).tasks;
  }

  lemma WritesThird()
    ensures
      var after := WriteBack(Asked(None, [HAS_C]), [A1, B1], Append([RAW_C]));
      after.d == AskedWithC(None).d && after.contents == MORE
  {
    var w := Asked(None, [HAS_C]);
    assert w.d.g.(images := [A1, B1]) == w.d.g;
    ThirdAdded(w.d.g, C_ADDED);
    LearnThird([A1, B1], 17, C_ADDED);
    assert [A1, B1] + [C_ADDED] == [A1, B1, C_ADDED];
  }

  lemma AddsDuringCheck()
    ensures Apply(Asked(None, [HAS_C]), Deliver(2)) == AskedWithC(None)
  {
    var w := Asked(None, [HAS_C]);
    WritesThird();
    assert w.tasks[2 := DONE_C] == AskedWithC(None).tasks;
  }

  const WITHOUT_C := Announced([A1, B1, C_ADDED], 20, [ROW_A, ROW_B], 0, [DONE_C], MORE)

  /** No row has the third image's key. */
  lemma WithoutCIsNotHeld()
    ensures !Held(WITHOUT_C.d)
  {
    var d := WITHOUT_C.d;
    assert d.stored == [ROW_A, ROW_B] && d.g.images[2] == C_ADDED;
    NotHeld(d, 2);
  }

  lemma CheckWithC()
    ensures Apply(AskedWithC(None), Serve(1)) == AskedWithC(Some(Listed(2)))
    ensures Apply(AskedWithC(Some(Listed(2))), Deliver(1)) == WITHOUT_C
  {
    LiveOfRows();
  }

  /** A picture selected while the check is awaited: the banner is set, and the picture is not on the server. */
  lemma SelectionBreaksBanner()
    ensures Reached(WITHOUT_C) && WITHOUT_C.closed && !Held(WITHOUT_C.d)
  {
    CheckReached();
    ReadsDuringCheck();
    AddsDuringCheck();
    CheckWithC();
    ReachedStep(Asked(None, []), StartAdding([RAW_C]), Asked(None, [READS_C]));
    ReachedStep(Asked(None, [READS_C]), Serve(2), Asked(None, [HAS_C]));
    ReachedStep(Asked(None, [HAS_C]), Deliver(2), AskedWithC(None));
    ReachedStep(AskedWithC(None), Serve(1), AskedWithC(Some(Listed(2))));
    ReachedStep(AskedWithC(Some(Listed(2))), Deliver(1), WITHOUT_C);
    WithoutCIsNotHeld();
  }

  function OrderWithC(answer: Option<Answer>): World {
    World(Draft(Store([A1, B1, C_ADDED], 20, true), [ROW_A, ROW_B], {0, 1}, 0),
          [ADDED, Task(Saving([A1, B1], Ordering), PatchOrder([0, 1], 0), answer), DONE_C], [], MORE, false)
  }

  lemma ReadsDuringOrder()
    ensures Apply(OrderSent(None, []), StartAdding([RAW_C])) == OrderSent(None, [READS_C])
    ensures Apply(OrderSent(None, [READS_C]), Serve(2)) == OrderSent(None, [HAS_C])
  {
    assert Fitting(OrderSent(None, []).d.g, [RAW_C]) == [RAW_C];
    assert OrderSent(None, []).tasks + [READS_C] == OrderSent(None, [READS_C]).tasks;
    assert OrderSent(None, [READS_C]).tasks[2 := HAS_C] == OrderSent(None, [HAS_C]).tasks;
  }

  lemma AddsDuringOrder()
    ensures Apply(OrderSent(None, [HAS_C]), Deliver(2)) == OrderWithC(None)
  {
    var w := OrderSent(None, [HAS_C]);
    WritesThird();
    assert w.d == Asked(None, [HAS_C]).d && w.contents == Asked(None, [HAS_C]).contents;
    assert w.tasks[2 := DONE_C] == OrderWithC(None).tasks;
  }

  lemma OrdersWithC()
    ensures Apply(OrderWithC(None), Serve(1)) == OrderWithC(Some(Done))
    ensures Apply(OrderWithC(Some(Done)), Deliver(1)) == AskedWithC(None)
  {
    OrderAB();
  }

  /** The same when the selection is written back while the order is awaited: the order and the check go on as they
      would. */
  lemma SelectionDuringOrderBreaksBanner()
    ensures Reached(OrderWithC(None))
    ensures Run(Run(OrderWithC(None), [Serve(1), Deliver(1)]), [Serve(1), Deliver(1)]) == WITHOUT_C
    ensures WITHOUT_C.closed && !Held(WITHOUT_C.d)
  {
    CheckReached();
    ReadsDuringOrder();
    AddsDuringOrder();
    OrdersWithC();
    CheckWithC();
    ReachedStep(OrderSent(None, []), StartAdding([RAW_C]), OrderSent(None, [READS_C]));
    ReachedStep(OrderSent(None, [READS_C]), Serve(2), OrderSent(None, [HAS_C]));
    ReachedStep(OrderSent(None, [HAS_C]), Deliver(2), OrderWithC(None));
    RunTwo(OrderWithC(None), Serve(1), Deliver(1));
    RunTwo(AskedWithC(None), Serve(1), Deliver(1));
    WithoutCIsNotHeld();
  }

  lemma RunTwo(w: World, a: Event, b: Event)
    ensures Run(w, [a, b]) == Apply(Apply(w, a), b)
  {
    assert [a, b][..1] == [a] && [a][..0] == [];
    assert Run(w, [a]) == Apply(Run(w, []), a);
  }

  const READS_EARLY := Task(Adding([A0, B0], [RAW_C]), ReadFiles, None)
  const HAS_EARLY := Task(Adding([A0, B0], [RAW_C]), ReadFiles, Some(Done))
  const B_WAITS := Task(Saving([A1, B0], Uploading(1)), PostImage(1, BODY_B), None)

  /** After the selection has written its copy back: the first image has lost its id. */
  const LATE :=
    World(Draft(Store([A0, B0, C_LATE], 15, true), [ROW_A], {0}, 0),
          [ADDED, B_WAITS, DONE_C], [], MORE_LATE, false)

  lemma ReadsEarly()
    ensures Apply(Drafted(None, []), StartAdding([RAW_C])) == Drafted(None, [READS_EARLY])
    ensures Apply(SendingB(None, [READS_EARLY]), Serve(2)) == SendingB(None, [HAS_EARLY])
  {
    assert Fitting(Drafted(None, []).d.g, [RAW_C]) == [RAW_C];
    assert Drafted(None, []).tasks + [READS_EARLY] == Drafted(None, [READS_EARLY]).tasks;
    assert SendingB(None, [READS_EARLY]).tasks[2 := HAS_EARLY] == SendingB(None, [HAS_EARLY]).tasks;
  }

  lemma AddsLate()
    ensures Apply(SendingB(None, [HAS_EARLY]), Deliver(2)) == LATE
  {
    var w := SendingB(None, [HAS_EARLY]);
    ThirdAdded(w.d.g.(images := [A0, B0]), C_LATE);
    LearnThird([A0, B0], 12, C_LATE);
    assert [A0, B0] + [C_LATE] == [A0, B0, C_LATE];
    assert WriteBack(w, [A0, B0], Append([RAW_C])).d == LATE.d;
    assert w.tasks[2 := DONE_C] == LATE.tasks;
  }

  lemma EarlyReached()
    ensures Reached(SendingB(None, [READS_EARLY]))
  {
    FirstStarted();
    ReadsEarly();
    ReachedStep(Drafted(None, []), StartAdding([RAW_C]), Drafted(None, [READS_EARLY]));
    UpToCheck([READS_EARLY]);
  }

  /** A selection of files whose reading ends during a submit takes the acknowledged image's id away, and the next
      submit can send it again. */
  lemma SelectionResends()
    ensures Reached(LATE) && !LATE.closed && LATE.d.resent == 0 && CanRepeat(Apply(LATE, StartSaving), 0)
  {
    EarlyReached();
    ReadsEarly();
    AddsLate();
    ReachedStep(SendingB(None, [READS_EARLY]), Serve(2), SendingB(None, [HAS_EARLY]));
    ReachedStep(SendingB(None, [HAS_EARLY]), Deliver(2), LATE);
    StaleRepeats(LATE, 0);
  }

  // ---------------------------------------------------------------- a choice of primary

  /** Whatever was edited meanwhile, the answer to an upload writes the submit's own copy back. */
  lemma UploadOverwritesEdits(w: World, t: nat, copy: seq<Image>, i: nat, id: nat)
    requires Sound(w) && t < |w.tasks| && w.tasks[t].job == Saving(copy, Uploading(i))
      && w.tasks[t].answer == Some(Kept(id))
    ensures i < |copy| && Receive(w, t).d.g.images == copy[i := Acknowledged(copy[i], id)]
  {
    assert SoundTask(w, w.tasks[t]);
    AckedIs(w, copy, i, id);
  }

  const A_UNMARKED := Image("d", "f", "m", 1, false, Some(0), Uploaded, Some(0))
  const B_MARKED := Image("e", "f", "m", 1, true, Some(1), Uploaded, Some(1))
  const ORDER_BA := PatchOrder([0, 1], 1)
  const REORDERS_B := Task(Reordering, ORDER_BA, None)

  lemma {:induction false} LearnNothing(images: seq<Image>)
    requires forall i :: 0 <= i < |images| ==> KeyOf(images[i]) in CONTENTS
    ensures Learn(CONTENTS, images) == CONTENTS
  {
    if images != [] {
      var front := images[..|images| - 1];
      assert forall i :: 0 <= i < |front| ==> front[i] == images[i];
      LearnNothing(front);
    }
  }

  lemma MarksB(g: Store)
    requires g.images == [A1, B1]
    ensures Do(g, MakePrimary(1)) == g.(images := [A_UNMARKED, B_MARKED], nextKey := g.nextKey + 5)
  {
    assert Marked([A1, B1], 1) == [A_UNMARKED, B_MARKED];
    assert OnlyPrimary([A_UNMARKED, B_MARKED], 1);
    NormalizeFixedPoints([A_UNMARKED, B_MARKED], g.nextKey);
  }

  lemma MarksA(g: Store)
    requires g.images == [A_UNMARKED, B_MARKED]
    ensures Do(g, MakePrimary(0)) == g.(images := [A1, B1], nextKey := g.nextKey + 5)
  {
    assert Marked([A_UNMARKED, B_MARKED], 0) == [A1, B1];
    assert OnlyPrimary([A1, B1], 0);
    NormalizeFixedPoints([A1, B1], g.nextKey);
  }

  lemma MarkedOrder(nextKey: nat, stored: seq<Stored>, acked: set<nat>)
    ensures
      var d := Draft(Store([A_UNMARKED, B_MARKED], nextKey, true), stored, acked, 0);
      OrderDue(d) && OrderRequest(d) == ORDER_BA
    ensures
      var d := Draft(Store([A1, B1], nextKey, true), stored, acked, 0);
      OrderDue(d) && OrderRequest(d) == ORDER_AB
  {
    OrderAB();
    assert OnlyPrimary([A_UNMARKED, B_MARKED], 1);
    PrimaryIsOnly([A_UNMARKED, B_MARKED], 1);
    assert Ids([A_UNMARKED, B_MARKED]) == [0, 1];
  }

  /** The check is awaited, the second image was made primary, and that order is under way. */
  function MarkedCheck(answer: Option<Answer>): World {
    World(Draft(Store([A_UNMARKED, B_MARKED], 20, true), [ROW_A, ROW_B], {0, 1}, 0),
          [ADDED, Task(Saving([A1, B1], Checking), FetchDeal, answer), REORDERS_B], [], CONTENTS, false)
  }

  lemma MarksDuringCheck()
    ensures Apply(Asked(None, []), Click(MakePrimary(1))) == MarkedCheck(None)
  {
    var w := Asked(None, []);
    assert w.d.g.(images := w.d.g.images) == w.d.g;
    MarksB(w.d.g);
    LearnNothing([A_UNMARKED, B_MARKED]);
    MarkedOrder(20, [ROW_A, ROW_B], {0, 1});
    assert WriteBack(w, w.d.g.images, MakePrimary(1)).d == MarkedCheck(None).d;
    assert w.tasks + [REORDERS_B] == MarkedCheck(None).tasks;
  }

  const OTHER_MARK := Announced([A_UNMARKED, B_MARKED], 20, [ROW_A, ROW_B], 0, [REORDERS_B], CONTENTS)

  /** The first image is not marked, and its row is. */
  lemma OtherMarkIsNotHeld()
    ensures !Held(OTHER_MARK.d)
  {
    var d := OTHER_MARK.d;
    assert d.stored == [ROW_A, ROW_B] && d.g.images[0] == A_UNMARKED;
    NotHeld(d, 0);
  }

  lemma MarkedChecked()
    ensures Apply(MarkedCheck(None), Serve(1)) == MarkedCheck(Some(Listed(2)))
    ensures Apply(MarkedCheck(Some(Listed(2))), Deliver(1)) == OTHER_MARK
  {
    LiveOfRows();
  }

  /** A choice of primary while the check is awaited: the banner is set, and the server shows the other mark. */
  lemma ChoiceBreaksBanner()
    ensures Reached(OTHER_MARK) && OTHER_MARK.closed && !Held(OTHER_MARK.d)
  {
    CheckReached();
    MarksDuringCheck();
    MarkedChecked();
    ReachedStep(Asked(None, []), Click(MakePrimary(1)), MarkedCheck(None));
    ReachedStep(MarkedCheck(None), Serve(1), MarkedCheck(Some(Listed(2))));
    ReachedStep(MarkedCheck(Some(Listed(2))), Deliver(1), OTHER_MARK);
    OtherMarkIsNotHeld();
  }

  // ---------------------------------------------------------------- a late order

  const LOST_CHECK := Task(Finished(false), FetchDeal, Some(Listed(2)))
  const GONE_B := Task(Finished(false), ORDER_BA, None)
  const REORDERS_A := Task(Reordering, ORDER_AB, None)
  const ROW_A_PLAIN := Stored(0, BODY_A, true, 0, false)
  const ROW_B_FIRST := Stored(1, BODY_B, true, 1, true)

  function After(images: seq<Image>, nextKey: nat, stored: seq<Stored>, rest: seq<Task>, stray: seq<Request>): World {
    World(Draft(Store(images, nextKey, true), stored, {0, 1}, 0), [ADDED, LOST_CHECK] + rest, stray, CONTENTS, false)
  }

  const AB := [A1, B1]
  const ROWS := [ROW_A, ROW_B]
  const TURNED := [ROW_A_PLAIN, ROW_B_FIRST]

  /** The check is given up; the second image is made primary, then the first again; the first of the two orders is
      lost. */
  const CHECK_LOST := After(AB, 15, ROWS, [], [])
  const MARKED_ONCE := After([A_UNMARKED, B_MARKED], 20, ROWS, [REORDERS_B], [])
  const MARKED_BACK := After(AB, 25, ROWS, [REORDERS_B, REORDERS_A], [])
  const ORDER_LOST := After(AB, 25, ROWS, [GONE_B, REORDERS_A], [ORDER_BA])

  /** The submit that follows. */
  function Again(task: Task, stored: seq<Stored>, stray: seq<Request>): World {
    After(AB, 25, stored, [GONE_B, REORDERS_A, task], stray)
  }

  function AgainDrafting(answer: Option<Answer>): World {
    Again(Task(Saving(AB, Drafting(false)), SaveDraft, answer), ROWS, [ORDER_BA])
  }

  function AgainOrdering(answer: Option<Answer>): World {
    Again(Task(Saving(AB, Ordering), ORDER_AB, answer), ROWS, [ORDER_BA])
  }

  function AgainChecking(answer: Option<Answer>, stored: seq<Stored>, stray: seq<Request>): World {
    Again(Task(Saving(AB, Checking), FetchDeal, answer), stored, stray)
  }

  lemma CheckLost()
    ensures Apply(Asked(Some(Listed(2)), []), GiveUp(1)) == CHECK_LOST
  {
    assert Asked(Some(Listed(2)), []).tasks[1 := LOST_CHECK] == CHECK_LOST.tasks;
  }

  lemma MarksFirst()
    ensures Apply(CHECK_LOST, Click(MakePrimary(1))) == MARKED_ONCE
  {
    var w := CHECK_LOST;
    assert w.d.g.(images := w.d.g.images) == w.d.g;
    MarksB(w.d.g);
    LearnNothing([A_UNMARKED, B_MARKED]);
    MarkedOrder(20, ROWS, {0, 1});
    assert w.tasks + [REORDERS_B] == MARKED_ONCE.tasks;
  }

  lemma MarksBack()
    ensures Apply(MARKED_ONCE, Click(MakePrimary(0))) == MARKED_BACK
  {
    var w := MARKED_ONCE;
    assert w.d.g.(images := w.d.g.images) == w.d.g;
    MarksA(w.d.g);
    LearnNothing([A1, B1]);
    MarkedOrder(25, ROWS, {0, 1});
    assert w.tasks + [REORDERS_A] == MARKED_BACK.tasks;
  }

  lemma FirstOrderGivenUp()
    ensures Apply(MARKED_BACK, GiveUp(2)) == ORDER_LOST
  {
    assert MARKED_BACK.tasks[2 := GONE_B] == ORDER_LOST.tasks;
  }

  lemma SubmitsAgain()
    ensures Apply(ORDER_LOST, StartSaving) == AgainDrafting(None)
    ensures Apply(AgainDrafting(None), Serve(4)) == AgainDrafting(Some(Done))
  {
    assert ORDER_LOST.tasks + [Task(Saving(AB, Drafting(false)), SaveDraft, None)]
      == AgainDrafting(None).tasks;
  }

  lemma OrdersAgain()
    ensures Apply(AgainDrafting(Some(Done)), Deliver(4)) == AgainOrdering(None)
  {
    var w := AgainDrafting(Some(Done));
    assert NextWithoutId(AB, 0) == 2 by { assert NextWithoutId(AB, 2) == 2 && NextWithoutId(AB, 1) == 2; }
    MarkedOrder(25, ROWS, {0, 1});
    assert w.d.g.(hasDraft := true) == w.d.g;
  }

  lemma OrderedAgain()
    ensures Apply(AgainOrdering(None), Serve(4)) == AgainOrdering(Some(Done))
    ensures Apply(AgainOrdering(Some(Done)), Deliver(4)) == AgainChecking(None, ROWS, [ORDER_BA])
  {
    OrderAB();
  }

  lemma LateOrderServed()
    ensures Apply(AgainChecking(None, ROWS, [ORDER_BA]), ServeStray(0)) == AgainChecking(None, TURNED, [])
  {
    LiveOfRows();
    OrderAB();
    assert [0, 1][0] == 0 && [0, 1][1] == 1;
    assert PositionIn([0, 1], 0) == 0 && PositionIn([0, 1], 1) == 1;
    assert Ordered(ROWS, [0, 1], 1) == TURNED;
    assert [ORDER_BA][..0] + [ORDER_BA][1..] == [];
  }

  lemma CheckedAgain()
    ensures Apply(AgainChecking(None, TURNED, []), Serve(4)) == AgainChecking(Some(Listed(2)), TURNED, [])
  {
    assert LiveIds(TURNED) == {0, 1} == {0} + {1};
  }

  function LateBanner(): World {
    World(Draft(Store([A1, B1], 25, false), TURNED, {0, 1}, 0),
          [ADDED, LOST_CHECK, GONE_B, REORDERS_A, Task(Finished(true), FetchDeal, Some(Listed(2)))], [], CONTENTS, true)
  }

  lemma AnnouncedLate()
    ensures Apply(AgainChecking(Some(Listed(2)), TURNED, []), Deliver(4)) == LateBanner()
  {
  }

  lemma SubmittedAgainReached()
    ensures Reached(AgainChecking(None, ROWS, [ORDER_BA]))
  {
    GivenUpOrderReached();
    SubmitsAgain();
    OrdersAgain();
    OrderedAgain();
    ReachedStep(ORDER_LOST, StartSaving, AgainDrafting(None));
    ReachedStep(AgainDrafting(None), Serve(4), AgainDrafting(Some(Done)));
    ReachedStep(AgainDrafting(Some(Done)), Deliver(4), AgainOrdering(None));
    ReachedStep(AgainOrdering(None), Serve(4), AgainOrdering(Some(Done)));
    ReachedStep(AgainOrdering(Some(Done)), Deliver(4), AgainChecking(None, ROWS, [ORDER_BA]));
  }

  lemma GivenUpOrderReached()
    ensures Reached(ORDER_LOST)
  {
    CheckReached();
    ServesCheck([]);
    CheckLost();
    MarksFirst();
    MarksBack();
    FirstOrderGivenUp();
    ReachedStep(Asked(None, []), Serve(1), Asked(Some(Listed(2)), []));
    ReachedStep(Asked(Some(Listed(2)), []), GiveUp(1), CHECK_LOST);
    ReachedStep(CHECK_LOST, Click(MakePrimary(1)), MARKED_ONCE);
    ReachedStep(MARKED_ONCE, Click(MakePrimary(0)), MARKED_BACK);
    ReachedStep(MARKED_BACK, GiveUp(2), ORDER_LOST);
  }

  /** Nothing but submits of one gallery, and orders, is under way where that submit starts; but one order is for
      another mark. So images are stored once in the run that follows, and need not have their marks. */
  lemma LateOrderOverlaps()
    ensures Reached(ORDER_LOST) && Overlapping(ORDER_LOST, AB) && !Fine(ROWS, ORDER_BA, AB)
  {
    GivenUpOrderReached();
    assert OnlyPrimary(AB, 0);
    PrimaryIsOnly(AB, 0);
  }

  /** An order that was given up arrives while the check of a later submit is awaited: the banner is set, and the server
      shows the mark that was chosen first. */
  lemma LateOrderBreaksBanner()
    ensures Reached(LateBanner()) && LateBanner().closed && !Held(LateBanner().d)
  {
    SubmittedAgainReached();
    LateOrderServed();
    CheckedAgain();
    AnnouncedLate();
    ReachedStep(AgainChecking(None, ROWS, [ORDER_BA]), ServeStray(0), AgainChecking(None, TURNED, []));
    ReachedStep(AgainChecking(None, TURNED, []), Serve(4), AgainChecking(Some(Listed(2)), TURNED, []));
    ReachedStep(AgainChecking(Some(Listed(2)), TURNED, []), Deliver(4), LateBanner());
    NotHeld(LateBanner().d, 0);
  }
}

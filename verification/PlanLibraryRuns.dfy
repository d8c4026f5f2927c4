/** What holds of the plan library after every series of operations. */
module PlanLibraryRuns {
  import opened Wrappers
  import opened Text
  import opened PlanLibrary
  import Brief

  function CountOf(events: seq<Event>, id: string, kind: Counter): nat {
    if events == [] then 0
    else CountOf(events[..|events| - 1], id, kind) + if events[|events| - 1] == Event(id, kind) then 1 else 0
  }

  /** Plans are stored under their ids. */
  ghost predicate PlansOk(s: State) {
    forall id | id in s.plans :: s.plans[id].id == id
  }

  /** The ids of public plans and the ids of the plans they mirror lead to each other. */
  ghost predicate MirrorsOk(s: State) {
    && (forall p | p in s.planToPubID :: s.planToPubID[p] in s.publics && s.publics[s.planToPubID[p]].planID == p)
    && (forall id | id in s.publics ::
          s.publics[id].id == id && s.publics[id].planID in s.planToPubID && s.planToPubID[s.publics[id].planID] == id)
  }

  predicate Live(s: State, planID: string) {
    planID in s.plans && !s.plans[planID].deleted && s.plans[planID].publishStatus.Published?
  }

  /** A public plan is published exactly when its plan is there, not deleted, and published. */
  ghost predicate InStep(s: State) {
    && (forall id | id in s.publics :: s.publics[id].published <==> Live(s, s.publics[id].planID))
    && (forall p | Live(s, p) :: p in s.planToPubID)
  }

  ghost predicate CountsOk(s: State, id: string)
    requires id in s.publics
  {
    && s.publics[id].views == CountOf(s.events, id, View)
    && s.publics[id].saves == CountOf(s.events, id, Save)
    && s.publics[id].copies == CountOf(s.events, id, Copy)
    && s.publics[id].hotScore == s.publics[id].views + s.publics[id].saves * 5 + s.publics[id].copies * 3
  }

  ghost predicate CountersOk(s: State) {
    && (forall id | id in s.publics :: CountsOk(s, id))
    && (forall e | e in s.events :: e.publicPlanID in s.publics)
  }

  /** No user has two plans of one task. */
  ghost predicate OnePlanPerTask(s: State) {
    forall p, q | p in s.plans && q in s.plans && SameTask(s.plans[p], s.plans[q]) :: p == q
  }

  predicate SameTask(a: UserPlan, b: UserPlan) {
    a.taskID != "" && a.taskID == b.taskID && a.userID == b.userID && !a.deleted && !b.deleted
  }

  ghost predicate Inv(s: State) {
    PlansOk(s) && MirrorsOk(s) && InStep(s) && CountersOk(s) && OnePlanPerTask(s)
  }

  /** The ids an operation draws are new. */
  predicate Fresh(s: State, op: Operation) {
    match op
    case SavePlan(_, _, _, newID) => newID !in s.plans
    case Publish(_, _, _, newID, _) => newID !in s.publics
    case CopyPublic(_, _, newID) => newID !in s.plans
    case _ => true
  }

  ghost predicate Possible(s: State, ops: seq<Operation>)
    decreases |ops|
  {
    ops == [] || (Fresh(s, ops[0]) && Possible(Apply(s, ops[0]), ops[1..]))
  }

  ghost function After(s: State, ops: seq<Operation>): State
    decreases |ops|
  {
    if ops == [] then s else After(Apply(s, ops[0]), ops[1..])
  }

  // ---------------------------------------------------------------- steps on one store

  /** A plan is written that is, to the public, what it was. */
  lemma PlanWritten(s: State, plan: UserPlan)
    requires Inv(s)
    requires plan.id in s.plans ==>
               plan.publishStatus == s.plans[plan.id].publishStatus && plan.deleted == s.plans[plan.id].deleted
    requires plan.id !in s.plans ==> !plan.publishStatus.Published?
    requires plan.id in s.plans ==> plan.taskID == s.plans[plan.id].taskID && plan.userID == s.plans[plan.id].userID
    requires plan.id !in s.plans && plan.taskID != "" ==> !HasTask(s, plan.userID, plan.taskID)
    ensures Inv(s.(plans := s.plans[plan.id := plan]))
  {
    var s' := s.(plans := s.plans[plan.id := plan]);
    assert forall p :: Live(s', p) <==> Live(s, p);
    assert CountersOk(s') by {
      assert forall id | id in s.publics :: CountsOk(s, id);
    }
    assert OnePlanPerTask(s') by {
      hide MirrorsOk, InStep, CountersOk, Live;
      forall p, q | p in s'.plans && q in s'.plans && SameTask(s'.plans[p], s'.plans[q])
        ensures p == q
      {
      }
    }
  }

  /** The mirror of a plan is rewritten; its id, its plan and its state stay. */
  lemma MirrorRewritten(s: State, pub: PublicPlan)
    requires Inv(s) && pub.id in s.publics && pub.planID == s.publics[pub.id].planID
             && pub.published == s.publics[pub.id].published
    ensures Inv(Upserted(s, pub))
  {
  }

  lemma {:induction false} NoneCounted(events: seq<Event>, id: string, kind: Counter)
    requires forall e | e in events :: e.publicPlanID != id
    ensures CountOf(events, id, kind) == 0
  {
    if events != [] {
      assert forall e | e in events[..|events| - 1] :: e in events;
      NoneCounted(events[..|events| - 1], id, kind);
    }
  }

  lemma CountedKeepsCounters(s: State, id: string, kind: Counter)
    requires CountersOk(s) && id in s.publics
    ensures CountersOk(Counted(s, id, kind))
  {
  }

  /** The public plans are the same ones, with other texts and counters. */
  ghost predicate SameShape(s: State, s': State) {
    && s'.plans == s.plans && s'.planToPubID == s.planToPubID && s'.publics.Keys == s.publics.Keys
    && (forall id | id in s.publics ::
          s'.publics[id].id == s.publics[id].id && s'.publics[id].planID == s.publics[id].planID
          && s'.publics[id].published == s.publics[id].published)
  }

  lemma SameShapeKeeps(s: State, s': State)
    requires Inv(s) && SameShape(s, s')
    ensures PlansOk(s') && MirrorsOk(s') && InStep(s') && OnePlanPerTask(s')
  {
  }

  lemma {:induction false} CountedKeepsInv(s: State, id: string, kind: Counter)
    requires Inv(s)
    ensures Inv(Counted(s, id, kind))
  {
    if id in s.publics {
      CountedKeepsCounters(s, id, kind);
      hide Counted, SameShape;
      SameShapeKeeps(s, Counted(s, id, kind));
    }
  }

  // ---------------------------------------------------------------- the operations

  lemma FoundPlan(s: State, user: string, planID: string)
    requires PlansOk(s) && OwnPlan(s.plans, user, planID).Some?
    ensures OwnPlan(s.plans, user, planID).value.id == planID && planID in s.plans
    ensures s.plans[planID] == OwnPlan(s.plans, user, planID).value && !s.plans[planID].deleted
  {
  }

  /** The plan changes for its owner, and its mirror, if it is published, gets new texts. */
  lemma RewriteKeeps(s: State, user: string, planID: string, plan: UserPlan, pub: PublicPlan)
    requires Inv(s) && OwnPlan(s.plans, user, planID).Some?
    requires var found := OwnPlan(s.plans, user, planID).value;
             && plan.id == found.id && plan.publishStatus == found.publishStatus && plan.deleted == found.deleted
             && plan.taskID == found.taskID && plan.userID == found.userID
    requires Mirror(s, planID).Some? ==>
               var mirror := Mirror(s, planID).value;
               pub.id == mirror.id && pub.planID == mirror.planID && pub.published == mirror.published
    ensures var s1 := s.(plans := s.plans[plan.id := plan]);
            Inv(s1) && (Mirror(s, planID).Some? ==> Inv(Upserted(s1, pub)))
  {
    FoundPlan(s, user, planID);
    hide PlansOk, InStep, CountersOk, OnePlanPerTask, Upserted;
    PlanWritten(s, plan);
    if Mirror(s, planID).Some? {
      MirrorRewritten(s.(plans := s.plans[plan.id := plan]), pub);
    }
  }

  lemma {:induction false} RenameKeepsInv(s: State, user: string, planID: string, title: string)
    requires Inv(s)
    ensures Inv(Renamed(s, user, planID, title))
  {
    var plan := OwnPlan(s.plans, user, planID);
    if plan.Some? {
      FoundPlan(s, user, planID);
      hide Inv, Upserted, TrimSpace, TitleOk;
      var mirror := Mirror(s, planID);
      var renamed := plan.value.(title := TrimSpace(title));
      RewriteKeeps(s, user, planID, renamed, if mirror.Some? then mirror.value.(title := renamed.title) else Blank());
    }
  }

  /** Stands for a public plan that is not there. */
  function Blank(): PublicPlan {
    PublicPlan("", "", "", "", "", [], "", "", 0, false, 0, 0, 0, 0, 0)
  }

  lemma {:induction false} EditKeepsInv(s: State, user: string, planID: string, edit: EditInput)
    requires Inv(s)
    ensures Inv(AfterEdit(s, user, planID, edit))
  {
    var plan := OwnPlan(s.plans, user, planID);
    if plan.Some? && Edited(plan.value, edit).Some? {
      FoundPlan(s, user, planID);
      EditedKeeps(plan.value, edit);
      hide Inv, Upserted, Edited;
      var mirror := Mirror(s, planID);
      var edited := Edited(plan.value, edit).value;
      RewriteKeeps(s, user, planID, edited,
                   if mirror.Some? then
                     mirror.value.(title := edited.title, summary := edited.summary, tags := edited.tags)
                   else Blank());
    }
  }

  /** An edit leaves alone what is not the user's to edit. */
  lemma EditedKeeps(plan: UserPlan, edit: EditInput)
    requires Edited(plan, edit).Some?
    ensures var edited := Edited(plan, edit).value;
            && edited.id == plan.id && edited.userID == plan.userID && edited.taskID == plan.taskID
            && edited.publishStatus == plan.publishStatus && edited.deleted == plan.deleted && SameOwnTrip(edited, plan)
  {
  }

  /** A plan stops being published: it is deleted, or taken back. */
  function Ended(s: State, plan: UserPlan): State {
    var mirror := Mirror(s, plan.id);
    (if mirror.Some? then WithStatus(s, mirror.value.id, false) else s).(plans := s.plans[plan.id := plan])
  }

  lemma EndedKeepsInv(s: State, plan: UserPlan)
    requires Inv(s) && plan.id in s.plans && !(!plan.deleted && plan.publishStatus.Published?)
    requires plan.taskID == s.plans[plan.id].taskID && plan.userID == s.plans[plan.id].userID
    requires !s.plans[plan.id].deleted
    ensures Inv(Ended(s, plan))
  {
    hide Inv, Ended;
    EndedKeepsStep(s, plan);
    EndedKeepsCounters(s, plan);
    TasksKept(s, Ended(s, plan), plan);
    AllOf(Ended(s, plan));
  }

  lemma AllOf(s: State)
    requires PlansOk(s) && MirrorsOk(s) && InStep(s) && CountersOk(s) && OnePlanPerTask(s)
    ensures Inv(s)
  {
  }

  lemma EndedKeepsStep(s: State, plan: UserPlan)
    requires Inv(s) && plan.id in s.plans && !(!plan.deleted && plan.publishStatus.Published?)
    ensures Ended(s, plan).plans == s.plans[plan.id := plan]
    ensures PlansOk(Ended(s, plan)) && MirrorsOk(Ended(s, plan)) && InStep(Ended(s, plan))
  {
    hide CountersOk, OnePlanPerTask, Ended;
    EndedShape(s, plan);
    EndedInStep(s, Ended(s, plan), plan);
  }

  lemma EndedInStep(s: State, s': State, plan: UserPlan)
    requires MirrorsOk(s) && InStep(s) && !(!plan.deleted && plan.publishStatus.Published?)
    requires s'.plans == s.plans[plan.id := plan] && s'.planToPubID == s.planToPubID
             && s'.publics.Keys == s.publics.Keys
    requires forall id | id in s.publics ::
               var pub := s.publics[id];
               s'.publics[id] == if pub.planID == plan.id then pub.(published := false) else pub
    ensures MirrorsOk(s') && InStep(s')
  {
  }

  lemma EndedShape(s: State, plan: UserPlan)
    requires MirrorsOk(s)
    ensures var s' := Ended(s, plan);
            && s'.plans == s.plans[plan.id := plan] && s'.planToPubID == s.planToPubID
               && s'.publics.Keys == s.publics.Keys
            && (forall id | id in s.publics ::
                  var pub := s.publics[id];
                  s'.publics[id] == if pub.planID == plan.id then pub.(published := false) else pub)
  {
  }

  lemma EndedKeepsCounters(s: State, plan: UserPlan)
    requires Inv(s)
    ensures CountersOk(Ended(s, plan))
  {
  }

  lemma TasksKept(s: State, s': State, plan: UserPlan)
    requires Inv(s) && plan.id in s.plans && !s.plans[plan.id].deleted && s'.plans == s.plans[plan.id := plan]
    requires plan.taskID == s.plans[plan.id].taskID && plan.userID == s.plans[plan.id].userID
    ensures OnePlanPerTask(s')
  {
  }

  lemma {:induction false} DeleteKeepsInv(s: State, user: string, planID: string)
    requires Inv(s)
    ensures Inv(Deleted(s, user, planID))
  {
    var plan := OwnPlan(s.plans, user, planID);
    if plan.Some? {
      FoundPlan(s, user, planID);
      EndedKeepsInv(s, plan.value.(deleted := true));
      if !plan.value.publishStatus.Published? {
      }
    }
  }

  lemma UnpublishKeepsInv(s: State, user: string, planID: string)
    requires Inv(s)
    ensures Inv(AfterUnpublish(s, user, planID))
  {
    var plan := OwnPlan(s.plans, user, planID);
    if plan.Some? && plan.value.publishStatus.Published? {
      FoundPlan(s, user, planID);
      EndedKeepsInv(s, plan.value.(visibility := "private", publishStatus := Unpublished));
    }
  }

  /** A plan is published, under a new public id or the one it has. */
  lemma {:induction false} PublishedKeepsInv(s: State, plan: UserPlan, pub: PublicPlan)
    requires Inv(s) && plan.id in s.plans && plan.publishStatus.Published? && !plan.deleted && !s.plans[plan.id].deleted
    requires plan.taskID == s.plans[plan.id].taskID && plan.userID == s.plans[plan.id].userID
    requires pub.planID == plan.id && pub.published && pub.views == pub.saves == pub.copies == 0
    requires plan.id in s.planToPubID ==> pub.id == s.planToPubID[plan.id]
    requires plan.id !in s.planToPubID ==> pub.id !in s.publics
    ensures Inv(Upserted(s, pub).(plans := s.plans[plan.id := plan]))
  {
    hide Inv, Upserted;
    var s' := Upserted(s, pub).(plans := s.plans[plan.id := plan]);
    PublishedKeepsStep(s, plan, pub);
    PublishedKeepsCounters(s, pub);
    TasksKept(s, s', plan);
    AllOf(s');
  }

  lemma PublishedKeepsStep(s: State, plan: UserPlan, pub: PublicPlan)
    requires Inv(s) && plan.id in s.plans && plan.publishStatus.Published? && !plan.deleted
    requires pub.planID == plan.id && pub.published
    requires plan.id in s.planToPubID ==> pub.id == s.planToPubID[plan.id]
    requires plan.id !in s.planToPubID ==> pub.id !in s.publics
    ensures var s' := Upserted(s, pub).(plans := s.plans[plan.id := plan]); PlansOk(s') && MirrorsOk(s') && InStep(s')
  {
    hide CountersOk, OnePlanPerTask, Upserted;
    UpsertedShape(s, pub);
    hide Shape;
    var s' := Upserted(s, pub).(plans := s.plans[plan.id := plan]);
    PublishedMirrors(s, s', pub);
    PublishedInStep(s, s', plan, pub);
  }

  /** One public plan is written. */
  ghost predicate Shape(s: State, s': State, pub: PublicPlan) {
    && s'.planToPubID == s.planToPubID[pub.planID := pub.id]
    && s'.publics.Keys == s.publics.Keys + {pub.id}
    && (forall id | id in s.publics && id != pub.id :: s'.publics[id] == s.publics[id])
    && s'.publics[pub.id].id == pub.id && s'.publics[pub.id].planID == pub.planID
    && s'.publics[pub.id].published == pub.published && s'.publics[pub.id].publishedAt == pub.publishedAt
  }

  lemma UpsertedShape(s: State, pub: PublicPlan)
    requires pub.planID in s.planToPubID ==> pub.id == s.planToPubID[pub.planID]
    ensures forall plans :: Shape(s, Upserted(s, pub).(plans := plans), pub)
  {
  }

  lemma PublishedMirrors(s: State, s': State, pub: PublicPlan)
    requires MirrorsOk(s) && Shape(s, s', pub)
    requires pub.planID in s.planToPubID ==> pub.id == s.planToPubID[pub.planID]
    requires pub.planID !in s.planToPubID ==> pub.id !in s.publics
    ensures MirrorsOk(s')
  {
  }

  lemma PublishedInStep(s: State, s': State, plan: UserPlan, pub: PublicPlan)
    requires MirrorsOk(s) && InStep(s) && Shape(s, s', pub) && s'.plans == s.plans[plan.id := plan]
    requires plan.publishStatus.Published? && !plan.deleted && pub.planID == plan.id && pub.published
    requires plan.id in s.planToPubID ==> pub.id == s.planToPubID[plan.id]
    ensures InStep(s')
  {
  }

  lemma PublishedKeepsCounters(s: State, pub: PublicPlan)
    requires Inv(s) && pub.views == pub.saves == pub.copies == 0
    requires pub.planID in s.planToPubID ==> pub.id == s.planToPubID[pub.planID]
    requires pub.planID !in s.planToPubID ==> pub.id !in s.publics
    ensures CountersOk(Upserted(s, pub))
  {
    hide InStep, OnePlanPerTask, PlansOk;
    var s' := Upserted(s, pub);
    forall id | id in s'.publics
      ensures CountsOk(s', id)
    {
      if id in s.publics {
        assert CountsOk(s, id);
      } else {
        NoneCounted(s.events, id, View);
        NoneCounted(s.events, id, Save);
        NoneCounted(s.events, id, Copy);
      }
    }
  }

  lemma {:induction false} PublishKeepsInv(s: State, user: string, planID: string, input: PublishInput,
      newID: string, now: int)
    requires Inv(s) && newID !in s.publics
    ensures Inv(AfterPublish(s, user, planID, input, newID, now))
  {
    var plan := OwnPlan(s.plans, user, planID);
    if plan.Some? {
      FoundPlan(s, user, planID);
      hide Inv, MirrorOf, TrimSpace, Upserted, TitleOk;
      var mirror := Mirror(s, planID);
      var pub := Public(plan.value, input, if mirror.Some? then mirror.value.id else newID,
                        if mirror.Some? then mirror.value.publishedAt else now);
      assert pub.planID == planID && pub.published && pub.views == pub.saves == pub.copies == 0;
      hide Public;
      PublishedKeepsInv(s, plan.value.(visibility := "public", publishStatus := Published), pub);
    }
  }

  lemma SaveKeepsInv(s: State, user: string, input: SaveInput, snapshot: Option<Snapshot>, newID: string)
    requires Inv(s) && newID !in s.plans
    ensures Inv(Apply(s, SavePlan(user, input, snapshot, newID)))
  {
    hide TrimSpace, TitleOk, SavedTitle;
    var plan := NewPlan(s, user, input, snapshot, newID);
    if plan.Some? && !HasTask(s, user, input.taskID) {
      PlanWritten(s, plan.value);
    }
  }

  lemma {:induction false} CopyKeepsInv(s: State, viewer: string, publicID: string, newID: string)
    requires Inv(s) && newID !in s.plans
    ensures Inv(Apply(s, CopyPublic(viewer, publicID, newID)))
  {
    hide Inv, Counted;
    if viewer != "" && publicID in s.publics && s.publics[publicID].published {
      var plan := CopyOf(s.publics[publicID], viewer, newID);
      PlanWritten(s, plan);
      CountedKeepsInv(s.(plans := s.plans[newID := plan]), s.publics[publicID].id, Save);
    }
  }

  lemma {:induction false} StepKeepsInv(s: State, op: Operation)
    requires Inv(s) && Fresh(s, op)
    ensures Inv(Apply(s, op))
  {
    match op
    case SavePlan(user, input, snapshot, newID) => SaveKeepsInv(s, user, input, snapshot, newID);
    case Rename(user, planID, title) => RenameKeepsInv(s, user, planID, title);
    case Edit(user, planID, edit) => EditKeepsInv(s, user, planID, edit);
    case Delete(user, planID) => DeleteKeepsInv(s, user, planID);
    case Publish(user, planID, publish, newID, now) => PublishKeepsInv(s, user, planID, publish, newID, now);
    case Unpublish(user, planID) => UnpublishKeepsInv(s, user, planID);
    case ViewPublic(publicID, counts) =>
      if publicID in s.publics {
        CountedKeepsInv(s, s.publics[publicID].id, View);
      }
    case CopyPublic(viewer, publicID, newID) => CopyKeepsInv(s, viewer, publicID, newID);
  }

  lemma {:induction false} RunKeepsInv(s: State, ops: seq<Operation>)
    requires Inv(s) && Possible(s, ops)
    ensures Inv(After(s, ops))
    decreases |ops|
  {
    hide Inv, Apply, Fresh;
    if ops != [] {
      StepKeepsInv(s, ops[0]);
      RunKeepsInv(Apply(s, ops[0]), ops[1..]);
    }
  }

  // ---------------------------------------------------------------- for every run

  /**
    After every series of operations: a public plan is published exactly when its plan is there, not
    deleted and has the status published, and every such plan has a public one.
   */
  lemma PublicExactlyWhenPublished(ops: seq<Operation>)
    requires Possible(START, ops)
    ensures InStep(After(START, ops))
    ensures forall p | Live(After(START, ops), p) ::
              Mirror(After(START, ops), p).Some? && Mirror(After(START, ops), p).value.published
  {
    RunKeepsInv(START, ops);
    hide After, Possible;
  }

  /** After every series of operations plans and public plans lead to each other, and no task is saved twice. */
  lemma MirrorsAreInverse(ops: seq<Operation>)
    requires Possible(START, ops)
    ensures PlansOk(After(START, ops)) && MirrorsOk(After(START, ops)) && OnePlanPerTask(After(START, ops))
  {
    RunKeepsInv(START, ops);
    hide After, Possible;
  }

  /**
    After every series of operations the counters of a public plan are the numbers of its events, across
    republishing.
   */
  lemma CountersAreTheEvents(ops: seq<Operation>)
    requires Possible(START, ops)
    ensures CountersOk(After(START, ops))
  {
    RunKeepsInv(START, ops);
    hide After, Possible;
  }

  // ---------------------------------------------------------------- what lasts

  /** A plan keeps its public id; a public plan its plan, its date of publication and at least its counts. */
  ghost predicate Lasts(s: State, s': State) {
    && (forall p | p in s.planToPubID :: p in s'.planToPubID && s'.planToPubID[p] == s.planToPubID[p])
    && (forall id | id in s.publics :: id in s'.publics && LastsIn(s.publics[id], s'.publics[id]))
  }

  predicate LastsIn(p: PublicPlan, p': PublicPlan) {
    && p'.planID == p.planID && p'.publishedAt == p.publishedAt
    && p'.views >= p.views && p'.saves >= p.saves && p'.copies >= p.copies
  }

  lemma LastsThrough(a: State, b: State, c: State)
    requires Lasts(a, b) && Lasts(b, c)
    ensures Lasts(a, c)
  {
  }

  lemma UpsertedLasts(s: State, pub: PublicPlan)
    requires Inv(s)
    requires pub.planID in s.planToPubID ==>
               pub.publishedAt == s.publics[s.planToPubID[pub.planID]].publishedAt
    requires pub.planID !in s.planToPubID ==> pub.id !in s.publics
    ensures Lasts(s, Upserted(s, pub))
  {
  }

  lemma CountedLasts(s: State, id: string, kind: Counter)
    ensures Lasts(s, Counted(s, id, kind))
  {
  }

  lemma PlansDoNotMatter(s: State, s': State, plans: map<string, UserPlan>)
    ensures Lasts(s, s'.(plans := plans)) <==> Lasts(s, s')
  {
  }

  lemma MirrorIsOf(s: State, planID: string)
    requires MirrorsOk(s) && Mirror(s, planID).Some?
    ensures Mirror(s, planID).value.planID == planID
  {
  }

  lemma RenameLasts(s: State, user: string, planID: string, title: string)
    requires Inv(s)
    ensures Lasts(s, Renamed(s, user, planID, title))
  {
    var plan := OwnPlan(s.plans, user, planID);
    if plan.Some? {
      FoundPlan(s, user, planID);
      var mirror := Mirror(s, planID);
      if mirror.Some? {
        MirrorIsOf(s, planID);
      }
      hide Inv, Upserted, TrimSpace, TitleOk, Lasts;
      var renamed := plan.value.(title := TrimSpace(title));
    }
    NothingLasts(s);
  }

  lemma NothingLasts(s: State)
    ensures Lasts(s, s)
  {
  }

  lemma EditLasts(s: State, user: string, planID: string, edit: EditInput)
    requires Inv(s)
    ensures Lasts(s, AfterEdit(s, user, planID, edit))
  {
    var plan := OwnPlan(s.plans, user, planID);
    if plan.Some? && Edited(plan.value, edit).Some? {
      FoundPlan(s, user, planID);
      EditedKeeps(plan.value, edit);
      var mirror := Mirror(s, planID);
      if mirror.Some? {
        MirrorIsOf(s, planID);
      }
      hide Inv, Upserted, Edited, Lasts;
      var edited := Edited(plan.value, edit).value;
    }
    NothingLasts(s);
  }

  lemma DeleteLasts(s: State, user: string, planID: string)
    ensures Lasts(s, Deleted(s, user, planID))
  {
  }

  lemma UnpublishLasts(s: State, user: string, planID: string)
    ensures Lasts(s, AfterUnpublish(s, user, planID))
  {
  }

  lemma PublishLasts(s: State, user: string, planID: string, input: PublishInput, newID: string, now: int)
    requires Inv(s) && newID !in s.publics
    ensures Lasts(s, AfterPublish(s, user, planID, input, newID, now))
  {
    NothingLasts(s);
    var plan := OwnPlan(s.plans, user, planID);
    if plan.Some? {
      FoundPlan(s, user, planID);
      hide TrimSpace, Upserted, TitleOk, Lasts, CountersOk, OnePlanPerTask, InStep;
      var mirror := Mirror(s, planID);
      var pub := Public(plan.value, input, if mirror.Some? then mirror.value.id else newID,
                        if mirror.Some? then mirror.value.publishedAt else now);
      assert pub.planID == planID && pub.id == (if mirror.Some? then mirror.value.id else newID);
      hide Public;
      UpsertedLasts(s, pub);
      PlansDoNotMatter(s, Upserted(s, pub),
                       s.plans[planID := plan.value.(visibility := "public", publishStatus := Published)]);
    }
  }

  lemma {:induction false} StepLasts(s: State, op: Operation)
    requires Inv(s) && Fresh(s, op)
    ensures Lasts(s, Apply(s, op))
  {
    NothingLasts(s);
    hide Inv, Lasts, Counted;
    match op
    case SavePlan(user, input, snapshot, newID) =>
      PlansDoNotMatter(s, s, Apply(s, op).plans);
    case Rename(user, planID, title) => RenameLasts(s, user, planID, title);
    case Edit(user, planID, edit) => EditLasts(s, user, planID, edit);
    case Delete(user, planID) => DeleteLasts(s, user, planID);
    case Publish(user, planID, publish, newID, now) => PublishLasts(s, user, planID, publish, newID, now);
    case Unpublish(user, planID) => UnpublishLasts(s, user, planID);
    case ViewPublic(publicID, counts) =>
      if publicID in s.publics {
        CountedLasts(s, s.publics[publicID].id, View);
      }
    case CopyPublic(viewer, publicID, newID) =>
      if publicID in s.publics {
        var s1 := s.(plans := s.plans[newID := CopyOf(s.publics[publicID], viewer, newID)]);
        PlansDoNotMatter(s, s, s1.plans);
        CountedLasts(s1, s.publics[publicID].id, Save);
        LastsThrough(s, s1, Counted(s1, s.publics[publicID].id, Save));
      }
  }

  lemma {:induction false} RunLasts(s: State, ops: seq<Operation>)
    requires Inv(s) && Possible(s, ops)
    ensures Lasts(s, After(s, ops))
    decreases |ops|
  {
    hide Inv, Apply, Fresh, Lasts;
    if ops == [] {
      NothingLasts(s);
    } else {
      StepKeepsInv(s, ops[0]);
      StepLasts(s, ops[0]);
      RunLasts(Apply(s, ops[0]), ops[1..]);
      LastsThrough(s, Apply(s, ops[0]), After(s, ops));
    }
  }

  /**
    Between any two moments of any series of operations, unpublishing and publishing again included, a
    plan keeps its public id, and its public plan keeps its date and loses no count.
   */
  lemma PublicPlansLast(before: seq<Operation>, later: seq<Operation>)
    requires Possible(START, before) && Possible(After(START, before), later)
    ensures Lasts(After(START, before), After(After(START, before), later))
  {
    RunKeepsInv(START, before);
    RunLasts(After(START, before), later);
  }

  // ---------------------------------------------------------------- what the public sees

  /** A public plan belongs to its plan's owner and shows its plan's itinerary. */
  predicate Shows(s: State, id: string)
    requires id in s.publics
  {
    var pub := s.publics[id];
    pub.planID in s.plans && SameTrip(pub, s.plans[pub.planID])
  }

  predicate SameTrip(pub: PublicPlan, plan: UserPlan) {
    && pub.userID == plan.userID && pub.content == plan.content
    && pub.destinationCity == plan.destinationCity && pub.days == plan.days
  }

  ghost predicate AllShow(s: State) {
    forall id | id in s.publics :: Shows(s, id)
  }

  /** A plan is written over with the same trip. */
  lemma PlanKeepsShown(s: State, plan: UserPlan)
    requires AllShow(s) && (plan.id in s.plans ==> SameOwnTrip(plan, s.plans[plan.id]))
    ensures AllShow(s.(plans := s.plans[plan.id := plan]))
  {
    assert forall id | id in s.publics :: Shows(s, id);
  }

  predicate SameOwnTrip(a: UserPlan, b: UserPlan) {
    a.userID == b.userID && a.content == b.content && a.destinationCity == b.destinationCity && a.days == b.days
  }

  lemma UpsertKeepsShown(s: State, pub: PublicPlan)
    requires AllShow(s) && pub.planID in s.plans && SameTrip(pub, s.plans[pub.planID])
    ensures AllShow(Upserted(s, pub))
  {
    assert forall id | id in s.publics :: Shows(s, id);
  }

  lemma StatusKeepsShown(s: State, id: string, published: bool)
    requires AllShow(s)
    ensures AllShow(WithStatus(s, id, published))
  {
    assert forall id | id in s.publics :: Shows(s, id);
  }

  lemma CountedKeepsShown(s: State, id: string, kind: Counter)
    requires AllShow(s)
    ensures AllShow(Counted(s, id, kind))
  {
    assert forall id | id in s.publics :: Shows(s, id);
  }

  lemma RewriteKeepsShown(s: State, planID: string, plan: UserPlan, pub: PublicPlan)
    requires Inv(s) && AllShow(s) && plan.id == planID && planID in s.plans && SameOwnTrip(plan, s.plans[planID])
    requires Mirror(s, planID).Some? ==>
               var mirror := Mirror(s, planID).value;
               && pub.planID == mirror.planID && pub.userID == mirror.userID && pub.content == mirror.content
               && pub.destinationCity == mirror.destinationCity && pub.days == mirror.days
    ensures AllShow(s.(plans := s.plans[planID := plan]))
    ensures Mirror(s, planID).Some? ==> AllShow(Upserted(s.(plans := s.plans[planID := plan]), pub))
  {
    PlanKeepsShown(s, plan);
    if Mirror(s, planID).Some? {
      MirrorIsOf(s, planID);
      assert Shows(s, s.planToPubID[planID]);
      hide AllShow, Inv, Upserted;
      UpsertKeepsShown(s.(plans := s.plans[planID := plan]), pub);
    }
  }

  lemma RenameKeepsShown(s: State, user: string, planID: string, title: string)
    requires Inv(s) && AllShow(s)
    ensures AllShow(Renamed(s, user, planID, title))
  {
    var plan := OwnPlan(s.plans, user, planID);
    if plan.Some? {
      FoundPlan(s, user, planID);
      hide Inv, Upserted, TrimSpace, TitleOk, AllShow;
      var mirror := Mirror(s, planID);
      var renamed := plan.value.(title := TrimSpace(title));
      RewriteKeepsShown(s, planID, renamed, if mirror.Some? then mirror.value.(title := renamed.title) else Blank());
    }
  }

  lemma EditKeepsShown(s: State, user: string, planID: string, edit: EditInput)
    requires Inv(s) && AllShow(s)
    ensures AllShow(AfterEdit(s, user, planID, edit))
  {
    var plan := OwnPlan(s.plans, user, planID);
    if plan.Some? && Edited(plan.value, edit).Some? {
      FoundPlan(s, user, planID);
      EditedKeeps(plan.value, edit);
      hide Inv, Upserted, Edited, AllShow;
      var mirror := Mirror(s, planID);
      var edited := Edited(plan.value, edit).value;
      RewriteKeepsShown(s, planID, edited,
                        if mirror.Some? then
                          mirror.value.(title := edited.title, summary := edited.summary, tags := edited.tags)
                        else Blank());
    }
  }

  lemma DeleteKeepsShown(s: State, user: string, planID: string)
    requires Inv(s) && AllShow(s)
    ensures AllShow(Deleted(s, user, planID))
  {
    var plan := OwnPlan(s.plans, user, planID);
    if plan.Some? {
      FoundPlan(s, user, planID);
      hide Inv, WithStatus, AllShow;
      var s1 := s.(plans := s.plans[planID := plan.value.(deleted := true)]);
      PlanKeepsShown(s, plan.value.(deleted := true));
      if Mirror(s1, planID).Some? {
        StatusKeepsShown(s1, Mirror(s1, planID).value.id, false);
      }
    }
  }

  lemma UnpublishKeepsShown(s: State, user: string, planID: string)
    requires Inv(s) && AllShow(s)
    ensures AllShow(AfterUnpublish(s, user, planID))
  {
    var plan := OwnPlan(s.plans, user, planID);
    if plan.Some? {
      FoundPlan(s, user, planID);
      var mirror := Mirror(s, planID);
      var s1 := if mirror.Some? then WithStatus(s, mirror.value.id, false) else s;
      assert s1.plans == s.plans;
      hide Inv, WithStatus, AllShow;
      if mirror.Some? {
        StatusKeepsShown(s, mirror.value.id, false);
      }
      PlanKeepsShown(s1, plan.value.(visibility := "private", publishStatus := Unpublished));
    }
  }

  lemma PublishKeepsShown(s: State, user: string, planID: string, input: PublishInput, newID: string, now: int)
    requires Inv(s) && AllShow(s)
    ensures AllShow(AfterPublish(s, user, planID, input, newID, now))
  {
    var plan := OwnPlan(s.plans, user, planID);
    if plan.Some? {
      FoundPlan(s, user, planID);
      hide Inv, TrimSpace, TitleOk, AllShow;
      var mirror := Mirror(s, planID);
      var pub := Public(plan.value, input, if mirror.Some? then mirror.value.id else newID,
                        if mirror.Some? then mirror.value.publishedAt else now);
      assert SameTrip(pub, plan.value) && pub.planID == planID;
      assert Upserted(s, pub).plans == s.plans;
      hide Public, Upserted;
      UpsertKeepsShown(s, pub);
      PlanKeepsShown(Upserted(s, pub), plan.value.(visibility := "public", publishStatus := Published));
    }
  }

  lemma StepKeepsShown(s: State, op: Operation)
    requires Inv(s) && AllShow(s) && Fresh(s, op)
    ensures AllShow(Apply(s, op))
  {
    hide Inv, AllShow, Counted, TrimSpace, TitleOk;
    match op
    case SavePlan(user, input, snapshot, newID) =>
      if NewPlan(s, user, input, snapshot, newID).Some? {
        PlanKeepsShown(s, NewPlan(s, user, input, snapshot, newID).value);
      }
    case Rename(user, planID, title) => RenameKeepsShown(s, user, planID, title);
    case Edit(user, planID, edit) => EditKeepsShown(s, user, planID, edit);
    case Delete(user, planID) => DeleteKeepsShown(s, user, planID);
    case Publish(user, planID, publish, newID, now) => PublishKeepsShown(s, user, planID, publish, newID, now);
    case Unpublish(user, planID) => UnpublishKeepsShown(s, user, planID);
    case ViewPublic(publicID, counts) =>
      if publicID in s.publics {
        CountedKeepsShown(s, s.publics[publicID].id, View);
      }
    case CopyPublic(viewer, publicID, newID) =>
      if publicID in s.publics {
        var plan := CopyOf(s.publics[publicID], viewer, newID);
        PlanKeepsShown(s, plan);
        CountedKeepsShown(s.(plans := s.plans[newID := plan]), s.publics[publicID].id, Save);
      }
  }

  lemma {:induction false} RunKeepsShown(s: State, ops: seq<Operation>)
    requires Inv(s) && AllShow(s) && Possible(s, ops)
    ensures AllShow(After(s, ops))
    decreases |ops|
  {
    hide Inv, Apply, Fresh, AllShow;
    if ops != [] {
      StepKeepsInv(s, ops[0]);
      StepKeepsShown(s, ops[0]);
      RunKeepsShown(Apply(s, ops[0]), ops[1..]);
    }
  }

  /** After every series of operations each public plan is its owner's and shows the itinerary of its plan. */
  lemma PublicPlansShowTheirPlans(ops: seq<Operation>)
    requires Possible(START, ops)
    ensures AllShow(After(START, ops))
  {
    RunKeepsShown(START, ops);
  }

  /**
    After every series of operations: renaming or editing a published plan is seen in its public plan,
    whose title, and after an edit also summary and tags, are then those of the plan.
   */
  lemma ChangesAreSeen(ops: seq<Operation>, user: string, planID: string, title: string, edit: EditInput)
    requires Possible(START, ops) && Live(After(START, ops), planID)
    requires OwnPlan(After(START, ops).plans, user, planID).Some?
    ensures Mirror(After(START, ops), planID).Some?
    ensures var s := Renamed(After(START, ops), user, planID, title);
            TitleOk(title) ==>
              Mirror(s, planID).Some? && Mirror(s, planID).value.title == s.plans[planID].title == TrimSpace(title)
              && Mirror(s, planID).value.summary == Mirror(After(START, ops), planID).value.summary
              && Mirror(s, planID).value.tags == Mirror(After(START, ops), planID).value.tags
    ensures var s := AfterEdit(After(START, ops), user, planID, edit);
            Edited(After(START, ops).plans[planID], edit).Some? ==>
              && Mirror(s, planID).Some? && Mirror(s, planID).value.title == s.plans[planID].title
              && Mirror(s, planID).value.summary == s.plans[planID].summary
              && Mirror(s, planID).value.tags == s.plans[planID].tags
  {
    RunKeepsInv(START, ops);
    PublicExactlyWhenPublished(ops);
    hide Possible, After;
    var s := After(START, ops);
    if TitleOk(title) {
      RenameIsSeen(s, user, planID, title);
    }
    if Edited(s.plans[planID], edit).Some? {
      EditIsSeen(s, user, planID, edit);
    }
    hide Inv, Upserted, Edited, TrimSpace, TitleOk;
  }

  lemma RenameIsSeen(s: State, user: string, planID: string, title: string)
    requires Inv(s) && Live(s, planID) && OwnPlan(s.plans, user, planID).Some? && TitleOk(title)
    ensures Mirror(s, planID).Some?
    ensures var s' := Renamed(s, user, planID, title);
            && planID in s'.plans && Mirror(s', planID).Some?
            && Mirror(s', planID).value.title == s'.plans[planID].title == TrimSpace(title)
            && Mirror(s', planID).value.summary == Mirror(s, planID).value.summary
            && Mirror(s', planID).value.tags == Mirror(s, planID).value.tags
  {
    FoundPlan(s, user, planID);
    MirrorIsOf(s, planID);
    hide Inv, Upserted, TrimSpace, TitleOk;
    var renamed := s.plans[planID].(title := TrimSpace(title));
    TextsAreSeen(s, planID, renamed, Mirror(s, planID).value.(title := renamed.title));
  }

  lemma EditIsSeen(s: State, user: string, planID: string, edit: EditInput)
    requires Inv(s) && Live(s, planID) && OwnPlan(s.plans, user, planID).Some?
    requires Edited(s.plans[planID], edit).Some?
    ensures var s' := AfterEdit(s, user, planID, edit);
            && planID in s'.plans && Mirror(s', planID).Some?
            && Mirror(s', planID).value.title == s'.plans[planID].title
            && Mirror(s', planID).value.summary == s'.plans[planID].summary
            && Mirror(s', planID).value.tags == s'.plans[planID].tags
  {
    FoundPlan(s, user, planID);
    MirrorIsOf(s, planID);
    EditedKeeps(s.plans[planID], edit);
    hide Inv, Upserted, Edited;
    var edited := Edited(s.plans[planID], edit).value;
    TextsAreSeen(s, planID, edited,
                 Mirror(s, planID).value.(title := edited.title, summary := edited.summary, tags := edited.tags));
  }

  lemma TextsAreSeen(s: State, planID: string, plan: UserPlan, pub: PublicPlan)
    requires MirrorsOk(s) && planID in s.planToPubID && pub.planID == planID
    ensures var s' := Upserted(s.(plans := s.plans[planID := plan]), pub);
            && s'.plans == s.plans[planID := plan] && Mirror(s', planID).Some?
            && Mirror(s', planID).value.title == pub.title && Mirror(s', planID).value.summary == pub.summary
            && Mirror(s', planID).value.tags == pub.tags
  {
  }

  // ---------------------------------------------------------------- copies

  /** Between 2 and 80 characters, without the blanks around them. */
  predicate Fits(title: string) {
    2 <= |TrimSpace(title)| <= 80
  }

  ghost predicate TitlesFit(s: State) {
    && (forall id | id in s.plans :: Fits(s.plans[id].title))
    && (forall id | id in s.publics :: Fits(s.publics[id].title))
  }

  lemma TrimmedFits(title: string)
    ensures Fits(TrimSpace(title)) <==> Fits(title)
    ensures TitleOk(title) <==> Fits(title)
  {
    TrimTwice(title);
  }

  lemma UpsertKeepsTitles(s: State, pub: PublicPlan)
    requires TitlesFit(s) && Fits(pub.title)
    ensures TitlesFit(Upserted(s, pub))
  {
    hide Fits;
  }

  lemma EditedFits(plan: UserPlan, edit: EditInput)
    requires Fits(plan.title) && Edited(plan, edit).Some?
    ensures Fits(Edited(plan, edit).value.title)
  {
    if edit.title.Some? {
      TrimmedFits(edit.title.value);
    }
    hide Fits, TitleOk, TrimSpace, ToLower, Brief.FirstOccurrences;
  }

  lemma PublicFits(plan: UserPlan, input: PublishInput, id: string, at: int)
    ensures TitleOk(Public(plan, input, id, at).title) <==> Fits(Public(plan, input, id, at).title)
  {
    TrimmedFits(Public(plan, input, id, at).title);
    hide Fits, TitleOk, Public;
  }

  lemma ChangeKeepsTitles(s: State, op: Operation)
    requires TitlesFit(s) && (op.Rename? || op.Edit?)
    ensures TitlesFit(Apply(s, op))
  {
    hide Upserted, Fits, TitleOk, TrimSpace, Edited;
    var plan := OwnPlan(s.plans, op.user, op.planID);
    if plan.Some? {
      match op
      case Rename(_, _, title) =>
        TrimmedFits(title);
        var s1 := s.(plans := s.plans[plan.value.id := plan.value.(title := TrimSpace(title))]);
        var mirror := Mirror(s1, plan.value.id);
        if mirror.Some? && TitleOk(title) {
          UpsertKeepsTitles(s1, mirror.value.(title := TrimSpace(title)));
        }
      case Edit(_, _, edit) =>
        if Edited(plan.value, edit).Some? {
          EditedFits(plan.value, edit);
          var edited := Edited(plan.value, edit).value;
          var s1 := s.(plans := s.plans[edited.id := edited]);
          var mirror := Mirror(s1, edited.id);
          if mirror.Some? {
            UpsertKeepsTitles(s1, mirror.value.(title := edited.title, summary := edited.summary, tags := edited.tags));
          }
        }
    }
  }

  lemma PublishKeepsTitles(s: State, user: string, planID: string, input: PublishInput, newID: string, now: int)
    requires TitlesFit(s)
    ensures TitlesFit(AfterPublish(s, user, planID, input, newID, now))
  {
    hide Upserted, Fits, TitleOk, Public;
    var plan := OwnPlan(s.plans, user, planID);
    if plan.Some? {
      var mirror := Mirror(s, plan.value.id);
      var id, at := if mirror.Some? then mirror.value.id else newID, if mirror.Some? then mirror.value.publishedAt
          else now;
      PublicFits(plan.value, input, id, at);
      if TitleOk(Public(plan.value, input, id, at).title) {
        UpsertKeepsTitles(s, Public(plan.value, input, id, at));
      }
    }
  }

  lemma SaveKeepsTitles(s: State, op: Operation)
    requires TitlesFit(s) && op.SavePlan?
    ensures TitlesFit(Apply(s, op))
  {
    if op.snapshot.Some? {
      TrimmedFits(SavedTitle(op.input, op.snapshot.value));
    }
    hide Fits, TitleOk, TrimSpace, SavedTitle;
  }

  lemma CountedKeepsTitles(s: State, id: string, kind: Counter)
    requires TitlesFit(s)
    ensures TitlesFit(Counted(s, id, kind))
  {
    hide Fits;
  }

  lemma ViewKeepsTitles(s: State, op: Operation)
    requires TitlesFit(s) && (op.ViewPublic? || op.CopyPublic?)
    ensures TitlesFit(Apply(s, op))
  {
    hide Fits, Counted;
    if op.publicID in s.publics {
      var pub := s.publics[op.publicID];
      if op.CopyPublic? {
        var copied := s.(plans := s.plans[op.newID := CopyOf(pub, op.viewer, op.newID)]);
        CountedKeepsTitles(copied, pub.id, Save);
      } else {
        CountedKeepsTitles(s, pub.id, View);
      }
    }
  }

  lemma EndKeepsTitles(s: State, op: Operation)
    requires TitlesFit(s) && (op.Delete? || op.Unpublish?)
    ensures TitlesFit(Apply(s, op))
  {
    hide Fits;
  }

  lemma {:induction false} RunKeepsTitles(s: State, ops: seq<Operation>)
    requires TitlesFit(s)
    ensures TitlesFit(After(s, ops))
    decreases |ops|
  {
    hide TitlesFit, Apply;
    if ops != [] {
      match ops[0] {
        case Rename(_, _, _) => ChangeKeepsTitles(s, ops[0]);
        case Edit(_, _, _) => ChangeKeepsTitles(s, ops[0]);
        case Publish(user, planID, input, newID, now) =>
          PublishKeepsTitles(s, user, planID, input, newID, now);
          PublishIs(s, user, planID, input, newID, now);
        case SavePlan(_, _, _, _) => SaveKeepsTitles(s, ops[0]);
        case ViewPublic(_, _) => ViewKeepsTitles(s, ops[0]);
        case CopyPublic(_, _, _) => ViewKeepsTitles(s, ops[0]);
        case _ => EndKeepsTitles(s, ops[0]);
      }
      RunKeepsTitles(Apply(s, ops[0]), ops[1..]);
    }
  }

  lemma PublishIs(s: State, user: string, planID: string, input: PublishInput, newID: string, now: int)
    ensures Apply(s, Publish(user, planID, input, newID, now)) == AfterPublish(s, user, planID, input, newID, now)
  {
  }

  /** The same trip with the same texts. */
  predicate SameToReaders(a: PublicPlan, b: PublicPlan) {
    && a.title == b.title && a.summary == b.summary && a.tags == b.tags
    && a.content == b.content && a.destinationCity == b.destinationCity && a.days == b.days
  }

  /**
    After every series of operations: a copy of a public plan, published without any change, shows the
    public the same plan again, as the copier's own and beside the first one.
   */
  lemma {:induction false} CopyShowsTheSame(ops: seq<Operation>, viewer: string, publicID: string, newID: string,
      newPublicID: string, now: int)
    requires Possible(START, ops) && viewer != ""
    requires var s := After(START, ops);
             publicID in s.publics && s.publics[publicID].published && newID !in s.plans && newPublicID !in s.publics
    ensures var s := After(START, ops);
            var s2 := After(s, [CopyPublic(viewer, publicID, newID),
                                Publish(viewer, newID, PublishInput("", "", []), newPublicID, now)]);
            && publicID in s2.publics && newPublicID in s2.publics && newPublicID != publicID
            && s2.publics[newPublicID].published && s2.publics[newPublicID].userID == viewer
            && SameToReaders(s2.publics[newPublicID], s.publics[publicID])
            && SameToReaders(s2.publics[publicID], s.publics[publicID])
  {
    RunKeepsInv(START, ops);
    RunKeepsTitles(START, ops);
    RunKeepsShown(START, ops);
    var s := After(START, ops);
    assert forall id | id in s.publics :: Shows(s, id);
    hide Possible, After, Fits, TitleOk, TrimSpace;
    CopiedAndPublished(s, viewer, publicID, newID, newPublicID, now);
    TwoOperations(s, CopyPublic(viewer, publicID, newID),
                  Publish(viewer, newID, PublishInput("", "", []), newPublicID, now));
  }

  lemma TwoOperations(s: State, a: Operation, b: Operation)
    ensures After(s, [a, b]) == Apply(Apply(s, a), b)
  {
    hide Apply;
    assert [a, b][1..] == [b] && [b][1..] == [];
    assert After(Apply(s, a), [b]) == Apply(Apply(s, a), b);
  }

  lemma NothingGiven()
    ensures TrimSpace("") == "" && Brief.FirstOccurrences([]) == []
  {
  }

  lemma CopiedAndPublished(s: State, viewer: string, publicID: string, newID: string, newPublicID: string, now: int)
    requires MirrorsOk(s) && TitlesFit(s) && viewer != ""
    requires publicID in s.publics && s.publics[publicID].published && newPublicID !in s.publics
    requires newID !in s.planToPubID
    ensures var s2 := Apply(Apply(s, CopyPublic(viewer, publicID, newID)),
                            Publish(viewer, newID, PublishInput("", "", []), newPublicID, now));
            && publicID in s2.publics && newPublicID in s2.publics && newPublicID != publicID
            && s2.publics[newPublicID].published && s2.publics[newPublicID].userID == viewer
            && SameToReaders(s2.publics[newPublicID], s.publics[publicID])
            && SameToReaders(s2.publics[publicID], s.publics[publicID])
  {
    NothingGiven();
    TrimmedFits(s.publics[publicID].title);
    hide Fits, TitleOk, TrimSpace, Brief.FirstOccurrences;
    var s1 := Apply(s, CopyPublic(viewer, publicID, newID));
    assert newPublicID !in s1.publics && s1.planToPubID == s.planToPubID;
    assert SameToReaders(s1.publics[publicID], s.publics[publicID]);
  }
}

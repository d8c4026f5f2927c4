/**
  internal/plans/store.go and service.go: a user's saved plans, and the public mirror of those that are
  published. Store calls do not fail here, and ids that are drawn are new.
 */
module PlanLibrary {
  import opened Wrappers
  import opened Text
  import Brief

  datatype PublishStatus = Draft | Published | Unpublished

  /** `content` is the itinerary, which the library copies and does not look at. */
  datatype UserPlan = UserPlan(
    id: string,
    userID: string,
    taskID: string,
    sourcePublicPlanID: string,
    title: string,
    note: string,
    summary: string,
    tags: seq<string>,
    content: string,
    destinationCity: string,
    days: int,
    visibility: string,
    publishStatus: PublishStatus,
    deleted: bool)

  datatype PublicPlan = PublicPlan(
    id: string,
    planID: string,
    userID: string,
    title: string,
    summary: string,
    tags: seq<string>,
    content: string,
    destinationCity: string,
    days: int,
    published: bool,
    views: nat,
    saves: nat,
    copies: nat,
    hotScore: nat,
    publishedAt: int)

  datatype Counter = View | Save | Copy

  datatype Event = Event(publicPlanID: string, kind: Counter)

  datatype State = State(
    plans: map<string, UserPlan>,
    publics: map<string, PublicPlan>,
    planToPubID: map<string, string>,
    events: seq<Event>)

  const START := State(map[], map[], map[], [])

  function HotScore(p: PublicPlan): nat {
    p.views + p.saves * 5 + p.copies * 3
  }

  // ---------------------------------------------------------------- the two stores

  function OwnPlan(plans: map<string, UserPlan>, user: string, id: string): Option<UserPlan> {
    if id in plans && plans[id].userID == user && !plans[id].deleted then Some(plans[id]) else None
  }

  function MirrorOf(publics: map<string, PublicPlan>, planToPubID: map<string, string>, planID: string)
    : Option<PublicPlan>
  {
    if planID in planToPubID && planToPubID[planID] in publics then Some(publics[planToPubID[planID]]) else None
  }

  /** Storing a public plan: under the id its plan already has, and with the counters it already has. */
  function Upserted(s: State, pub: PublicPlan): State {
    var id := if pub.planID in s.planToPubID then s.planToPubID[pub.planID] else pub.id;
    var kept :=
      if id in s.publics then
        pub.(id := id, views := s.publics[id].views, saves := s.publics[id].saves, copies := s.publics[id].copies)
      else pub.(id := id);
    s.(publics := s.publics[id := kept.(hotScore := HotScore(kept))], planToPubID := s.planToPubID[pub.planID := id])
  }

  function WithStatus(s: State, id: string, published: bool): State {
    if id in s.publics then s.(publics := s.publics[id := s.publics[id].(published := published)]) else s
  }

  /** incrementPublicCounter: one more of this kind, and the event that tells so. */
  function Counted(s: State, id: string, kind: Counter): State {
    if id in s.publics then
      var p := s.publics[id];
      var more := match kind
        case View => p.(views := p.views + 1)
        case Save => p.(saves := p.saves + 1)
        case Copy => p.(copies := p.copies + 1);
      s.(publics := s.publics[id := more.(hotScore := HotScore(more))], events := s.events + [Event(id, kind)])
    else s
  }

  class MemoryPlanStore {
    var plans: map<string, UserPlan>

    constructor ()
      ensures plans == map[]
    {
      plans := map[];
    }

    method Create(plan: UserPlan)
      modifies this
      ensures plans == old(plans)[plan.id := plan]
    {
      plans := plans[plan.id := plan];
    }

    method Get(planID: string, userID: string) returns (plan: Option<UserPlan>)
      ensures plan == OwnPlan(plans, userID, planID)
    {
      if planID !in plans {
        return None;
      }
      var found := plans[planID];
      if found.userID != userID || found.deleted {
        return None;
      }
      return Some(found);
    }

    method GetByTaskID(userID: string, taskID: string) returns (plan: Option<UserPlan>)
      ensures plan.Some? <==> exists id | id in plans :: IsOfTask(plans[id], userID, taskID)
      ensures plan.Some? ==> IsOfTask(plan.value, userID, taskID) && plan.value in plans.Values
    {
      if id :| id in plans && IsOfTask(plans[id], userID, taskID) {
        return Some(plans[id]);
      }
      return None;
    }

    method Update(plan: UserPlan) returns (ok: bool)
      modifies this
      ensures ok <==> plan.id in old(plans) && old(plans)[plan.id].userID == plan.userID
      ensures plans == if ok then old(plans)[plan.id := plan] else old(plans)
    {
      if plan.id !in plans || plans[plan.id].userID != plan.userID {
        return false;
      }
      plans := plans[plan.id := plan];
      return true;
    }

    method SoftDelete(planID: string, userID: string) returns (ok: bool)
      modifies this
      ensures ok <==> planID in old(plans) && old(plans)[planID].userID == userID
      ensures plans == if ok then old(plans)[planID := old(plans)[planID].(deleted := true)] else old(plans)
    {
      if planID !in plans || plans[planID].userID != userID {
        return false;
      }
      plans := plans[planID := plans[planID].(deleted := true)];
      return true;
    }
  }

  predicate IsOfTask(plan: UserPlan, user: string, taskID: string) {
    plan.userID == user && plan.taskID == taskID && !plan.deleted
  }

  class MemoryPublicPlanStore {
    var plans: map<string, PublicPlan>
    var planToPubID: map<string, string>
    var events: seq<Event>

    /** This store beside the plans of users. */
    ghost function With(users: map<string, UserPlan>): State
      reads this
    {
      State(users, plans, planToPubID, events)
    }

    constructor ()
      ensures With(map[]) == START
    {
      plans := map[];
      planToPubID := map[];
      events := [];
    }

    method Upsert(pub: PublicPlan)
      modifies this
      ensures forall users :: With(users) == Upserted(old(With(users)), pub)
    {
      var plan := pub;
      if plan.planID in planToPubID && planToPubID[plan.planID] != plan.id {
        plan := plan.(id := planToPubID[plan.planID]);
      }
      if plan.id in plans {
        var existing := plans[plan.id];
        plan := plan.(views := existing.views, saves := existing.saves, copies := existing.copies);
      }
      plan := plan.(hotScore := HotScore(plan));
      plans := plans[plan.id := plan];
      planToPubID := planToPubID[plan.planID := plan.id];
    }

    method Get(id: string) returns (plan: Option<PublicPlan>)
      ensures plan == if id in plans then Some(plans[id]) else None
    {
      return if id in plans then Some(plans[id]) else None;
    }

    method GetByPlanID(planID: string) returns (plan: Option<PublicPlan>)
      ensures plan == MirrorOf(plans, planToPubID, planID)
    {
      if planID !in planToPubID {
        return None;
      }
      var id := planToPubID[planID];
      return if id in plans then Some(plans[id]) else None;
    }

    method SetStatus(id: string, published: bool) returns (ok: bool)
      modifies this
      ensures ok <==> id in old(plans)
      ensures forall users :: With(users) == WithStatus(old(With(users)), id, published)
    {
      if id !in plans {
        return false;
      }
      plans := plans[id := plans[id].(published := published)];
      return true;
    }

    method IncrementCounter(id: string, kind: Counter) returns (ok: bool)
      modifies this`plans
      ensures ok <==> id in old(plans)
      ensures forall users ::
                var counted := Counted(old(With(users)), id, kind);
                With(users).(events := counted.events) == counted
    {
      if id !in plans {
        return false;
      }
      var plan := plans[id];
      match kind {
        case View => plan := plan.(views := plan.views + 1);
        case Save => plan := plan.(saves := plan.saves + 1);
        case Copy => plan := plan.(copies := plan.copies + 1);
      }
      plan := plan.(hotScore := HotScore(plan));
      plans := plans[id := plan];
      return true;
    }

    method RecordEvent(event: Event)
      modifies this`events
      ensures events == old(events) + [event]
    {
      events := events + [event];
    }
  }

  // ---------------------------------------------------------------- what the operations do

  const MIN_TITLE := 2
  const MAX_TITLE := 80

  predicate TitleOk(title: string) {
    MIN_TITLE <= |TrimSpace(title)| <= MAX_TITLE
  }

  /** The task that a plan is saved from: its owner, whether it succeeded with a plan, and what of it is kept. */
  datatype Snapshot = Snapshot(
    userID: string, succeeded: bool, planTitle: string, summary: string, content: string, destinationCity: string,
    days: int, tags: seq<string>)

  datatype SaveInput = SaveInput(taskID: string, title: string, note: string)

  datatype EditInput = EditInput(
    title: Option<string>,
    note: Option<string>,
    summary: Option<string>,
    tags: Option<seq<string>>,
    visibility: Option<string>)

  datatype PublishInput = PublishInput(title: string, summary: string, tags: seq<string>)

  datatype Operation =
    | SavePlan(user: string, input: SaveInput, snapshot: Option<Snapshot>, newID: string)
    | Rename(user: string, planID: string, title: string)
    | Edit(user: string, planID: string, edit: EditInput)
    | Delete(user: string, planID: string)
    | Publish(user: string, planID: string, publish: PublishInput, newID: string, now: int)
    | Unpublish(user: string, planID: string)
    | ViewPublic(publicID: string, counts: bool)
    | CopyPublic(viewer: string, publicID: string, newID: string)

  function SavedTitle(input: SaveInput, t: Snapshot): string {
    if TrimSpace(input.title) != "" then TrimSpace(input.title)
    else if TrimSpace(t.planTitle) != "" then TrimSpace(t.planTitle)
    else TrimSpace(t.destinationCity) + " 旅行计划"
  }

  /** The new plan, when the request to save is one that is granted. */
  function NewPlan(s: State, user: string, input: SaveInput, snapshot: Option<Snapshot>, newID: string)
    : Option<UserPlan>
  {
    if user == "" || input.taskID == "" || snapshot.None? then None
    else
      var t := snapshot.value;
      var title := SavedTitle(input, t);
      if !t.succeeded || (t.userID != "" && t.userID != user) || !TitleOk(title) then None
      else
        Some(UserPlan(newID, user, input.taskID, "", title, TrimSpace(input.note), TrimSpace(t.summary), t.tags,
                      t.content, t.destinationCity, t.days, "private", Draft, false))
  }

  predicate HasTask(s: State, user: string, taskID: string) {
    exists id | id in s.plans :: IsOfTask(s.plans[id], user, taskID)
  }

  /** The plan with the fields of the edit, when all of them are valid. */
  function Edited(plan: UserPlan, e: EditInput): Option<UserPlan> {
    var visibility := if e.visibility.Some? then ToLower(TrimSpace(e.visibility.value)) else plan.visibility;
    if (e.title.Some? && !TitleOk(e.title.value))
       || (e.visibility.Some? && visibility != "private" && visibility != "public")
    then None
    else
      Some(plan.(title := if e.title.Some? then TrimSpace(e.title.value) else plan.title,
                 note := if e.note.Some? then TrimSpace(e.note.value) else plan.note,
                 summary := if e.summary.Some? then TrimSpace(e.summary.value) else plan.summary,
                 tags := if e.tags.Some? then Brief.FirstOccurrences(e.tags.value) else plan.tags,
                 visibility := visibility))
  }

  /** What is published: the fields given, and the plan's own where none is. */
  function Public(plan: UserPlan, input: PublishInput, id: string, publishedAt: int): PublicPlan {
    var tags := Brief.FirstOccurrences(input.tags);
    PublicPlan(
      id, plan.id, plan.userID,
      if TrimSpace(input.title) == "" then plan.title else TrimSpace(input.title),
      if TrimSpace(input.summary) == "" then plan.summary else TrimSpace(input.summary),
      if |tags| == 0 then plan.tags else tags,
      plan.content, plan.destinationCity, plan.days, true, 0, 0, 0, 0, publishedAt)
  }

  function Mirror(s: State, planID: string): Option<PublicPlan> {
    MirrorOf(s.publics, s.planToPubID, planID)
  }

  function CopyOf(pub: PublicPlan, viewer: string, newID: string): UserPlan {
    UserPlan(newID, viewer, "", pub.id, pub.title, "", pub.summary, pub.tags, pub.content,
             pub.destinationCity, pub.days, "private", Draft, false)
  }

  function Renamed(s: State, user: string, planID: string, title: string): State {
    var plan := OwnPlan(s.plans, user, planID);
    if plan.None? || !TitleOk(title) then s
    else
      var renamed := plan.value.(title := TrimSpace(title));
      var s1 := s.(plans := s.plans[renamed.id := renamed]);
      var mirror := Mirror(s1, renamed.id);
      if renamed.publishStatus.Published? && mirror.Some? then
        Upserted(s1, mirror.value.(title := renamed.title))
      else s1
  }

  function AfterEdit(s: State, user: string, planID: string, edit: EditInput): State {
    var plan := OwnPlan(s.plans, user, planID);
    if plan.None? || Edited(plan.value, edit).None? then s
    else
      var edited := Edited(plan.value, edit).value;
      var s1 := s.(plans := s.plans[edited.id := edited]);
      var mirror := Mirror(s1, edited.id);
      if edited.publishStatus.Published? && mirror.Some? then
        Upserted(s1, mirror.value.(title := edited.title, summary := edited.summary, tags := edited.tags))
      else s1
  }

  function Deleted(s: State, user: string, planID: string): State {
    var plan := OwnPlan(s.plans, user, planID);
    if plan.None? then s
    else
      var s1 := s.(plans := s.plans[plan.value.id := plan.value.(deleted := true)]);
      var mirror := Mirror(s1, plan.value.id);
      if plan.value.publishStatus.Published? && mirror.Some? then WithStatus(s1, mirror.value.id, false) else s1
  }

  function AfterPublish(s: State, user: string, planID: string, input: PublishInput, newID: string, now: int): State {
    var plan := OwnPlan(s.plans, user, planID);
    if plan.None? then s
    else
      var mirror := Mirror(s, plan.value.id);
      var pub := Public(plan.value, input, if mirror.Some? then mirror.value.id else newID,
                        if mirror.Some? then mirror.value.publishedAt else now);
      if !TitleOk(pub.title) then s
      else
        var published := plan.value.(visibility := "public", publishStatus := Published);
        Upserted(s, pub).(plans := s.plans[published.id := published])
  }

  function AfterUnpublish(s: State, user: string, planID: string): State {
    var plan := OwnPlan(s.plans, user, planID);
    if plan.None? || !plan.value.publishStatus.Published? then s
    else
      var mirror := Mirror(s, plan.value.id);
      var s1 := if mirror.Some? then WithStatus(s, mirror.value.id, false) else s;
      s1.(plans := s.plans[plan.value.id := plan.value.(visibility := "private", publishStatus := Unpublished)])
  }

  /** The state after an operation; one that is refused leaves it as it is. */
  function Apply(s: State, op: Operation): State {
    match op
    case SavePlan(user, input, snapshot, newID) =>
      var plan := NewPlan(s, user, input, snapshot, newID);
      if plan.None? || HasTask(s, user, input.taskID) then s else s.(plans := s.plans[newID := plan.value])
    case Rename(user, planID, title) => Renamed(s, user, planID, title)
    case Edit(user, planID, edit) => AfterEdit(s, user, planID, edit)
    case Delete(user, planID) => Deleted(s, user, planID)
    case Publish(user, planID, publish, newID, now) => AfterPublish(s, user, planID, publish, newID, now)
    case Unpublish(user, planID) => AfterUnpublish(s, user, planID)
    case ViewPublic(publicID, counts) =>
      if publicID in s.publics && s.publics[publicID].published && counts then
        Counted(s, s.publics[publicID].id, View)
      else s
    case CopyPublic(viewer, publicID, newID) =>
      if viewer != "" && publicID in s.publics && s.publics[publicID].published then
        var pub := s.publics[publicID];
        Counted(s.(plans := s.plans[newID := CopyOf(pub, viewer, newID)]), pub.id, Save)
      else s
  }

  /** A public plan that is stored is found by its plan. */
  lemma UpsertedMirror(s: State, pub: PublicPlan)
    requires pub.planID in s.planToPubID ==> s.planToPubID[pub.planID] == pub.id
    ensures var s' := Upserted(s, pub);
            && s'.plans == s.plans
            && pub.planID in s'.planToPubID && s'.planToPubID[pub.planID] == pub.id && pub.id in s'.publics
            && var stored := s'.publics[pub.id];
               stored == pub.(views := stored.views, saves := stored.saves, copies := stored.copies,
                              hotScore := stored.hotScore)
               && (pub.id in s.publics ==>
                     && stored.views == s.publics[pub.id].views && stored.saves == s.publics[pub.id].saves
                     && stored.copies == s.publics[pub.id].copies)
  {
  }

  /** An edit leaves the plan its id, its owner and its place. */
  lemma EditedIsOwn(plan: UserPlan, edit: EditInput)
    requires Edited(plan, edit).Some?
    ensures var edited := Edited(plan, edit).value;
            edited.id == plan.id && edited.userID == plan.userID && edited.deleted == plan.deleted
  {
    hide TrimSpace, ToLower, TitleOk;
  }

  // ---------------------------------------------------------------- the service

  datatype Error =
    | PlanNotFound | TaskNotFound | TaskNotSucceeded | TaskNotOwned | InvalidTitle | InvalidVisibility
    | NotPublished | PublicNotFound | SourceForbidden

  datatype Result<T> = Ok(value: T) | Err(error: Error)

  class Library {
    const plans: MemoryPlanStore
    const publics: MemoryPublicPlanStore

    constructor (plans: MemoryPlanStore, publics: MemoryPublicPlanStore)
      ensures this.plans == plans && this.publics == publics
    {
      this.plans := plans;
      this.publics := publics;
    }

    ghost function Now(): State
      reads plans, publics
    {
      publics.With(plans.plans)
    }

    /** A new plan of a task: what it takes from the request to save, and what from the task. */
    static predicate IsSavedFrom(plan: UserPlan, user: string, input: SaveInput, task: Snapshot) {
      && task.succeeded && (task.userID == "" || task.userID == user)
      && plan.userID == user && plan.taskID == input.taskID && plan.sourcePublicPlanID == ""
      && (if TrimSpace(input.title) != "" then plan.title == TrimSpace(input.title)
          else if TrimSpace(task.planTitle) != "" then plan.title == TrimSpace(task.planTitle)
          else plan.title == TrimSpace(task.destinationCity) + " 旅行计划")
      && 2 <= |TrimSpace(plan.title)| <= 80
      && plan.note == TrimSpace(input.note) && plan.summary == TrimSpace(task.summary) && plan.tags == task.tags
      && plan.content == task.content && plan.destinationCity == task.destinationCity && plan.days == task.days
      && plan.visibility == "private" && plan.publishStatus.Draft? && !plan.deleted
    }

    /** Which error is for what. */
    static predicate SaveFails(error: Error, user: string, input: SaveInput, snapshot: Option<Snapshot>) {
      match error
      case PlanNotFound => user == ""
      case TaskNotFound => input.taskID == "" || snapshot.None?
      case TaskNotSucceeded => snapshot.Some? && !snapshot.value.succeeded
      case TaskNotOwned => snapshot.Some? && snapshot.value.userID != "" && snapshot.value.userID != user
      case InvalidTitle => snapshot.Some? && snapshot.value.succeeded
      case _ => false
    }

    method Save(user: string, input: SaveInput, snapshot: Option<Snapshot>, newID: string) returns (r: Result<UserPlan>)
      modifies plans
      ensures Now() == Apply(old(Now()), SavePlan(user, input, snapshot, newID))
      ensures r.Ok? ==> IsOfTask(r.value, user, input.taskID) && r.value in plans.plans.Values
      ensures r.Ok? <==> user != "" && input.taskID != ""
                         && (HasTask(old(Now()), user, input.taskID)
                             || NewPlan(old(Now()), user, input, snapshot, newID).Some?)
      ensures r.Err? || HasTask(old(Now()), user, input.taskID) ==> plans.plans == old(plans.plans)
      ensures r.Ok? && !HasTask(old(Now()), user, input.taskID) ==>
                snapshot.Some? && IsSavedFrom(r.value, user, input, snapshot.value)
                && r.value.id == newID && plans.plans == old(plans.plans)[newID := r.value]
      ensures r.Err? ==> SaveFails(r.error, user, input, snapshot)
      ensures r.Err? && user != "" && input.taskID != "" && snapshot.Some? ==>
                forall plan :: !IsSavedFrom(plan, user, input, snapshot.value)
    {
      hide TrimSpace;
      if user == "" {
        return Err(PlanNotFound);
      }
      if input.taskID == "" {
        return Err(TaskNotFound);
      }
      var existing := plans.GetByTaskID(user, input.taskID);
      if existing.Some? {
        return Ok(existing.value);
      }
      if snapshot.None? {
        return Err(TaskNotFound);
      }
      var task := snapshot.value;
      if !task.succeeded {
        return Err(TaskNotSucceeded);
      }
      if task.userID != "" && task.userID != user {
        return Err(TaskNotOwned);
      }
      var title := TrimSpace(input.title);
      if title == "" {
        title := TrimSpace(task.planTitle);
      }
      if title == "" {
        title := TrimSpace(task.destinationCity) + " 旅行计划";
      }
      if !TitleOk(title) {
        return Err(InvalidTitle);
      }
      var plan := UserPlan(newID, user, input.taskID, "", title, TrimSpace(input.note), TrimSpace(task.summary),
                           task.tags, task.content, task.destinationCity, task.days, "private", Draft, false);
      plans.Create(plan);
      assert plans.plans[newID] == plan;
      return Ok(plan);
    }

    /** Keeps the public mirror of a published plan in step. */
    method UpdateMirror(planID: string, title: string, summary: Option<string>, tags: Option<seq<string>>)
      modifies publics
      ensures var mirror := Mirror(old(Now()), planID);
              Now() == if mirror.None? then old(Now())
                       else Upserted(old(Now()), mirror.value.(
                         title := title,
                         summary := if summary.Some? then summary.value else mirror.value.summary,
                         tags := if tags.Some? then tags.value else mirror.value.tags))
    {
      hide Upserted;
      var pub := publics.GetByPlanID(planID);
      if pub.Some? {
        var changed := pub.value.(title := title);
        if summary.Some? {
          changed := changed.(summary := summary.value);
        }
        if tags.Some? {
          changed := changed.(tags := tags.value);
        }
        publics.Upsert(changed);
      }
    }

    method RenamePlan(user: string, planID: string, title: string) returns (r: Result<UserPlan>)
      requires forall id | id in plans.plans :: plans.plans[id].id == id
      modifies plans, publics
      ensures Now() == Apply(old(Now()), Rename(user, planID, title))
      ensures r.Ok? <==> OwnPlan(old(plans.plans), user, planID).Some? && 2 <= |TrimSpace(title)| <= 80
      ensures r.Ok? ==> r.value.title == TrimSpace(title) && OwnPlan(plans.plans, user, planID) == Some(r.value)
      ensures r.Ok? ==> r.value == old(plans.plans)[planID].(title := TrimSpace(title))
      ensures plans.plans == if r.Ok? then old(plans.plans)[planID := r.value] else old(plans.plans)
    {
      hide Upserted, TrimSpace;
      var found := plans.Get(planID, user);
      if found.None? {
        return Err(PlanNotFound);
      }
      if !TitleOk(title) {
        return Err(InvalidTitle);
      }
      hide TitleOk;
      var plan := found.value.(title := TrimSpace(title));
      var ok := plans.Update(plan);
      if plan.publishStatus.Published? {
        UpdateMirror(plan.id, plan.title, None, None);
      }
      return Ok(plan);
    }

    method EditPlan(user: string, planID: string, edit: EditInput) returns (r: Result<UserPlan>)
      requires forall id | id in plans.plans :: plans.plans[id].id == id
      modifies plans, publics
      ensures Now() == Apply(old(Now()), Edit(user, planID, edit))
      ensures OwnPlan(old(plans.plans), user, planID).None? ==> r == Err(PlanNotFound)
      ensures OwnPlan(old(plans.plans), user, planID).Some? ==>
                (match Edited(OwnPlan(old(plans.plans), user, planID).value, edit)
                 case None => r.Err?
                 case Some(edited) => r == Ok(edited) && OwnPlan(plans.plans, user, planID) == Some(edited))
      ensures r.Ok? ==> SameBut(old(plans.plans)[planID], r.value, edit) && Given(r.value, edit)
      ensures plans.plans == if r.Ok? then old(plans.plans)[planID := r.value] else old(plans.plans)
    {
      hide Upserted, Edited;
      var found := plans.Get(planID, user);
      if found.None? {
        return Err(PlanNotFound);
      }
      var edited := EditFields(found.value, edit);
      if edited.Err? {
        return edited;
      }
      var plan := edited.value;
      EditedIsOwn(found.value, edit);
      var ok := plans.Update(plan);
      if plan.publishStatus.Published? {
        UpdateMirror(plan.id, plan.title, Some(plan.summary), Some(plan.tags));
      }
      return Ok(plan);
    }

    /** What an edit does not name stays, and no edit touches the identity, the content or the publication. */
    static ghost predicate SameBut(before: UserPlan, after: UserPlan, edit: EditInput) {
      && after.id == before.id && after.userID == before.userID && after.taskID == before.taskID
      && after.content == before.content && after.publishStatus == before.publishStatus
      && after.deleted == before.deleted
      && after.destinationCity == before.destinationCity && after.days == before.days
      && after.sourcePublicPlanID == before.sourcePublicPlanID
      && (edit.title.None? ==> after.title == before.title)
      && (edit.note.None? ==> after.note == before.note)
      && (edit.summary.None? ==> after.summary == before.summary)
      && (edit.tags.None? ==> after.tags == before.tags)
      && (edit.visibility.None? ==> after.visibility == before.visibility)
    }

    /** What an edit names is as it says, trimmed. */
    static ghost predicate Given(after: UserPlan, edit: EditInput) {
      && (edit.title.Some? ==> after.title == TrimSpace(edit.title.value))
      && (edit.note.Some? ==> after.note == TrimSpace(edit.note.value))
      && (edit.summary.Some? ==> after.summary == TrimSpace(edit.summary.value))
      && (edit.tags.Some? ==> after.tags == Brief.FirstOccurrences(edit.tags.value))
      && (edit.visibility.Some? ==> after.visibility == ToLower(TrimSpace(edit.visibility.value)))
    }

    /** The fields of the edit, one by one. */
    static method EditFields(before: UserPlan, edit: EditInput) returns (r: Result<UserPlan>)
      ensures match Edited(before, edit) case None => r.Err? case Some(edited) => r == Ok(edited)
      ensures r == Err(InvalidTitle) <==> edit.title.Some? && !(2 <= |TrimSpace(edit.title.value)| <= 80)
      ensures r == Err(InvalidVisibility) <==>
                && (edit.title.Some? ==> 2 <= |TrimSpace(edit.title.value)| <= 80)
                && edit.visibility.Some? && ToLower(TrimSpace(edit.visibility.value)) !in {"private", "public"}
      ensures r.Ok? ==> SameBut(before, r.value, edit) && Given(r.value, edit)
    {
      hide TrimSpace, ToLower, Brief.FirstOccurrences;
      var plan := before;
      if edit.title.Some? {
        if !TitleOk(edit.title.value) {
          return Err(InvalidTitle);
        }
        plan := plan.(title := TrimSpace(edit.title.value));
      }
      if edit.note.Some? {
        plan := plan.(note := TrimSpace(edit.note.value));
      }
      if edit.summary.Some? {
        plan := plan.(summary := TrimSpace(edit.summary.value));
      }
      if edit.tags.Some? {
        var tags := Brief.NormalizeStringSlice(edit.tags.value);
        plan := plan.(tags := tags);
      }
      if edit.visibility.Some? {
        var v := ToLower(TrimSpace(edit.visibility.value));
        if v != "private" && v != "public" {
          return Err(InvalidVisibility);
        }
        plan := plan.(visibility := v);
      }
      return Ok(plan);
    }

    method DeletePlan(user: string, planID: string) returns (r: Result<()>)
      requires forall id | id in plans.plans :: plans.plans[id].id == id
      modifies plans, publics
      ensures Now() == Apply(old(Now()), Delete(user, planID))
      ensures r.Ok? <==> OwnPlan(old(plans.plans), user, planID).Some?
      ensures OwnPlan(plans.plans, user, planID).None?
      ensures plans.plans == if r.Ok? then old(plans.plans)[planID := old(plans.plans)[planID].(deleted := true)]
                             else old(plans.plans)
    {
      var found := plans.Get(planID, user);
      if found.None? {
        return Err(PlanNotFound);
      }
      var ok := plans.SoftDelete(found.value.id, user);
      if found.value.publishStatus.Published? {
        var pub := publics.GetByPlanID(found.value.id);
        if pub.Some? {
          var done := publics.SetStatus(pub.value.id, false);
        }
      }
      return Ok(());
    }

    /** The title, summary and tags given, or else the plan's own; everything else is the plan's. */
    static ghost predicate ShowsPlan(pub: PublicPlan, plan: UserPlan, input: PublishInput) {
      && pub.planID == plan.id && pub.userID == plan.userID && pub.content == plan.content
      && pub.destinationCity == plan.destinationCity && pub.days == plan.days
      && pub.title == (if TrimSpace(input.title) == "" then plan.title else TrimSpace(input.title))
      && pub.summary == (if TrimSpace(input.summary) == "" then plan.summary else TrimSpace(input.summary))
      && pub.tags == (if Brief.FirstOccurrences(input.tags) == [] then plan.tags
                      else Brief.FirstOccurrences(input.tags))
    }

    /** Publishing again keeps the public id, the date and the counts. */
    static predicate Continues(pub: PublicPlan, before: Option<PublicPlan>, newID: string, now: int) {
      match before
      case None => pub.id == newID && pub.publishedAt == now
      case Some(kept) =>
        && pub.id == kept.id && pub.publishedAt == kept.publishedAt
        && pub.views == kept.views && pub.saves == kept.saves && pub.copies == kept.copies
    }

    method PublishPlan(user: string, planID: string, input: PublishInput, newID: string, now: int)
        returns (r: Result<PublicPlan>)
      requires forall id | id in plans.plans :: plans.plans[id].id == id
      requires forall p | p in publics.planToPubID ::
                 publics.planToPubID[p] in publics.plans
                     && publics.plans[publics.planToPubID[p]].id == publics.planToPubID[p]
      modifies plans, publics
      ensures Now() == Apply(old(Now()), Publish(user, planID, input, newID, now))
      ensures r.Ok? ==> r.value.published && Mirror(Now(), planID) == Some(r.value)
      ensures r.Ok? ==> OwnPlan(old(plans.plans), user, planID).Some?
                        && ShowsPlan(r.value, old(plans.plans)[planID], input)
      ensures r.Err? ==>
                || OwnPlan(old(plans.plans), user, planID).None?
                || forall pub | ShowsPlan(pub, old(plans.plans)[planID], input) :: !(2 <= |TrimSpace(pub.title)| <= 80)
      ensures r.Ok? ==> 2 <= |TrimSpace(r.value.title)| <= 80
      ensures r.Ok? ==> Continues(r.value, Mirror(old(Now()), planID), newID, now)
      ensures plans.plans == if r.Err? then old(plans.plans) else old(plans.plans)[planID :=
                old(plans.plans)[planID].(visibility := "public", publishStatus := Published)]
    {
      hide TrimSpace, Public, Upserted;
      var found := plans.Get(planID, user);
      if found.None? {
        return Err(PlanNotFound);
      }
      var plan := found.value;
      var pub := PublicFields(plan, input, newID, now);
      if !TitleOk(pub.title) {
        return Err(InvalidTitle);
      }
      var existing := publics.GetByPlanID(plan.id);
      if existing.Some? {
        pub := pub.(id := existing.value.id, publishedAt := existing.value.publishedAt);
      }
      UpsertedMirror(Now(), pub);
      publics.Upsert(pub);
      plan := plan.(visibility := "public", publishStatus := Published);
      var ok := plans.Update(plan);
      var stored := publics.Get(pub.id);
      if stored.None? {
        return Err(PublicNotFound);
      }
      return Ok(stored.value);
    }

    /** The public plan as it would be published for the first time. */
    static method PublicFields(plan: UserPlan, input: PublishInput, newID: string, now: int) returns (pub: PublicPlan)
      ensures pub == Public(plan, input, newID, now)
      ensures forall id, at :: pub.(id := id, publishedAt := at) == Public(plan, input, id, at)
      ensures pub.planID == plan.id && pub.published
      ensures ShowsPlan(pub, plan, input)
    {
      hide TrimSpace, Brief.FirstOccurrences;
      var title := TrimSpace(input.title);
      if title == "" {
        title := plan.title;
      }
      var summary := TrimSpace(input.summary);
      if summary == "" {
        summary := plan.summary;
      }
      var tags := Brief.NormalizeStringSlice(input.tags);
      if |tags| == 0 {
        tags := plan.tags;
      }
      pub := PublicPlan(newID, plan.id, plan.userID, title, summary, tags, plan.content, plan.destinationCity,
                        plan.days, true, 0, 0, 0, 0, now);
    }

    method UnpublishPlan(user: string, planID: string) returns (r: Result<()>)
      requires forall id | id in plans.plans :: plans.plans[id].id == id
      modifies plans, publics
      ensures Now() == Apply(old(Now()), Unpublish(user, planID))
      ensures r.Ok? <==> OwnPlan(old(plans.plans), user, planID).Some?
                         && OwnPlan(old(plans.plans), user, planID).value.publishStatus.Published?
      ensures plans.plans == if r.Err? then old(plans.plans) else old(plans.plans)[planID :=
                old(plans.plans)[planID].(visibility := "private", publishStatus := Unpublished)]
    {
      var found := plans.Get(planID, user);
      if found.None? {
        return Err(PlanNotFound);
      }
      var plan := found.value;
      if !plan.publishStatus.Published? {
        return Err(NotPublished);
      }
      var pub := publics.GetByPlanID(plan.id);
      if pub.Some? {
        var ok := publics.SetStatus(pub.value.id, false);
      }
      plan := plan.(visibility := "private", publishStatus := Unpublished);
      var ok := plans.Update(plan);
      return Ok(());
    }

    /** One more of this kind and nothing else, but for the score: views once, saves five and copies three times. */
    static predicate CountedOnce(before: PublicPlan, after: PublicPlan, kind: Counter) {
      && after.views == before.views + (if kind.View? then 1 else 0)
      && after.saves == before.saves + (if kind.Save? then 1 else 0)
      && after.copies == before.copies + (if kind.Copy? then 1 else 0)
      && after.hotScore == after.views + after.saves * 5 + after.copies * 3
      && before.(views := after.views, saves := after.saves, copies := after.copies,
         hotScore := after.hotScore) == after
    }

    method IncrementPublicCounter(id: string, kind: Counter) returns (counted: bool)
      modifies publics
      ensures Now() == Counted(old(Now()), id, kind)
      ensures counted <==> id in old(publics.plans)
      ensures counted ==> id in publics.plans && CountedOnce(old(publics.plans)[id], publics.plans[id], kind)
                          && publics.events == old(publics.events) + [Event(id, kind)]
    {
      var ok := publics.IncrementCounter(id, kind);
      if !ok {
        return false;
      }
      publics.RecordEvent(Event(id, kind));
      return true;
    }

    /** `counts` is false when the same viewer has been counted lately. */
    method GetPublic(id: string, counts: bool) returns (r: Result<PublicPlan>)
      requires forall p | p in publics.plans :: publics.plans[p].id == p
      modifies publics
      ensures Now() == Apply(old(Now()), ViewPublic(id, counts))
      ensures r.Ok? <==> id in old(publics.plans) && old(publics.plans)[id].published
      ensures r.Ok? ==> r.value == publics.plans[id]
      ensures r.Ok? && counts ==> CountedOnce(old(publics.plans)[id], r.value, View)
                                  && publics.events == old(publics.events) + [Event(id, View)]
      ensures r.Err? || !counts ==> Now() == old(Now())
    {
      var found := publics.Get(id);
      if found.None? || !found.value.published {
        return Err(PublicNotFound);
      }
      var pub := found.value;
      if !counts {
        return Ok(pub);
      }
      var counted := IncrementPublicCounter(pub.id, View);
      if counted {
        pub := pub.(views := pub.views + 1);
        pub := pub.(hotScore := HotScore(pub));
      }
      return Ok(pub);
    }

    /** The trip and its texts of the public plan, as a private draft of its own, without note or task. */
    static predicate IsCopyOf(plan: UserPlan, pub: PublicPlan) {
      && plan.sourcePublicPlanID == pub.id && plan.taskID == "" && plan.note == ""
      && plan.title == pub.title && plan.summary == pub.summary && plan.tags == pub.tags
      && plan.content == pub.content && plan.destinationCity == pub.destinationCity && plan.days == pub.days
      && plan.visibility == "private" && plan.publishStatus.Draft? && !plan.deleted
    }

    method SavePublicAsCopy(viewer: string, id: string, newID: string) returns (r: Result<UserPlan>)
      modifies plans, publics
      ensures Now() == Apply(old(Now()), CopyPublic(viewer, id, newID))
      ensures r.Ok? <==> viewer != "" && id in old(publics.plans) && old(publics.plans)[id].published
      ensures r.Ok? ==> OwnPlan(plans.plans, viewer, newID) == Some(r.value)
      ensures r.Ok? ==> IsCopyOf(r.value, old(publics.plans)[id]) && r.value.id == newID && r.value.userID == viewer
      ensures plans.plans == if r.Ok? then old(plans.plans)[newID := r.value] else old(plans.plans)
      ensures r.Err? ==> Now() == old(Now())
      ensures r.Ok? && old(publics.plans)[id].id == id ==>
                && id in publics.plans && CountedOnce(old(publics.plans)[id], publics.plans[id], Counter.Save)
                && publics.events == old(publics.events) + [Event(id, Counter.Save)]
    {
      hide Counted;
      if viewer == "" {
        return Err(PlanNotFound);
      }
      var found := publics.Get(id);
      if found.None? {
        return Err(PublicNotFound);
      }
      if !found.value.published {
        return Err(SourceForbidden);
      }
      var pub := found.value;
      var plan := UserPlan(newID, viewer, "", pub.id, pub.title, "", pub.summary, pub.tags, pub.content,
                           pub.destinationCity, pub.days, "private", Draft, false);
      plans.Create(plan);
      var counted := IncrementPublicCounter(pub.id, Counter.Save);
      return Ok(plan);
    }
  }
}

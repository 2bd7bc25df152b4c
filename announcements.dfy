/**
 * `src/services/announcement.service.ts`: announcements and the delayed jobs that
 * trigger them, the classification of an announcement's targets, the sagas started when
 * a job fires, and the per-recipient private messages.
 *
 * The announcement collection and the job queue are two maps kept in step: an
 * announcement's `jobId` names a queued job for that announcement, and every queued job
 * belongs to an announcement that names it. Ids handed out by the store and by the queue
 * come from counters, so a new id is never one already in use.
 */
module Announcements {
  import opened Wrappers
  import opened Text

  type AnnouncementId = nat
  type JobId = nat
  /** A point in time, as the milliseconds of a `Date`. */
  type Time = int

  /** The audience options of one target; every field may be absent. */
  datatype Options = Options(channelIds: Option<seq<string>>, userIds: Option<seq<string>>,
                             roleIds: Option<seq<string>>, engagementCategories: Option<seq<string>>,
                             safetyMessageChannelId: Option<string>)

  /** One entry of an announcement's `data`: the platform it goes to, the template and the audience. */
  datatype Target = Target(platform: string, template: string, options: Options)

  datatype Announcement = Announcement(draft: Option<bool>, scheduledAt: Option<Time>, jobId: Option<JobId>, data: seq<Target>)

  /** The fields a caller supplies to create an announcement. */
  datatype NewAnnouncement = NewAnnouncement(draft: Option<bool>, scheduledAt: Option<Time>, data: seq<Target>)

  /** `Partial<IAnnouncement>`: the fields an update sets. */
  datatype Patch = Patch(draft: Option<bool>, scheduledAt: Option<Time>, data: Option<seq<Target>>)

  /** A queued job: the announcement it triggers (`{announcementId}`) and when. */
  datatype Job = Job(announcementId: AnnouncementId, at: Option<Time>)

  /** The errors the service throws: a draft created with `draft: false`, a missing job, a job that already exists. */
  datatype AnnouncementError = DraftSetToFalse | JobNotFound | JobAlreadyExists

  /** The store, the queue and the next ids each of them hands out. */
  datatype State = State(store: map<AnnouncementId, Announcement>, queue: map<JobId, Job>,
                         nextJob: JobId, nextId: AnnouncementId)

  // ---------------------------------------------------------------------------
  // the scheduling invariant

  /** Each stored `jobId` names a queued job for that announcement, and each queued job is named by its announcement. */
  predicate JobsMatch(store: map<AnnouncementId, Announcement>, queue: map<JobId, Job>) {
    && (forall id :: id in store && store[id].jobId.Some? ==>
          store[id].jobId.value in queue && queue[store[id].jobId.value].announcementId == id)
    && (forall j :: j in queue ==> queue[j].announcementId in store && store[queue[j].announcementId].jobId == Some(j))
  }

  predicate WellFormed(s: State) {
    && JobsMatch(s.store, s.queue)
    && (forall j :: j in s.queue ==> j < s.nextJob)
    && (forall id :: id in s.store ==> id < s.nextId)
  }

  /** At most one live job per announcement. */
  lemma AtMostOneJob(store: map<AnnouncementId, Announcement>, queue: map<JobId, Job>, j1: JobId, j2: JobId)
    requires JobsMatch(store, queue)
    requires j1 in queue && j2 in queue && queue[j1].announcementId == queue[j2].announcementId
    ensures j1 == j2
  {
  }

  /** An announcement has a `jobId` exactly when some queued job triggers it. */
  lemma JobIdIffQueued(store: map<AnnouncementId, Announcement>, queue: map<JobId, Job>, id: AnnouncementId)
    requires JobsMatch(store, queue) && id in store
    ensures store[id].jobId.Some? <==> exists j :: j in queue && queue[j].announcementId == id
  {
    if store[id].jobId.Some? {
      assert queue[store[id].jobId.value].announcementId == id;
    }
  }

  // ---------------------------------------------------------------------------
  // the transitions, as functions of the state

  /** `{...announcement, ...updatedData, jobId}`: the fields the patch sets win, and the job is replaced. */
  function Apply(a: Announcement, p: Patch, jobId: Option<JobId>): (b: Announcement)
    ensures b.jobId == jobId
    ensures b.draft == (if p.draft.Some? then p.draft else a.draft)
    ensures b.scheduledAt == (if p.scheduledAt.Some? then p.scheduledAt else a.scheduledAt)
    ensures b.data == (if p.data.Some? then p.data.value else a.data)
  {
    Announcement(if p.draft.Some? then p.draft else a.draft,
                 if p.scheduledAt.Some? then p.scheduledAt else a.scheduledAt,
                 jobId,
                 if p.data.Some? then p.data.value else a.data)
  }

  /** `updatedData.scheduledAt || oldAnnouncement.scheduledAt`. */
  function NewScheduledAt(a: Announcement, p: Patch): Option<Time> {
    if p.scheduledAt.Some? then p.scheduledAt else a.scheduledAt
  }

  function Stored(n: NewAnnouncement, jobId: Option<JobId>): Announcement {
    Announcement(n.draft, n.scheduledAt, jobId, n.data)
  }

  /** `createDraftAnnouncement`: refused when `draft` is exactly `false`, otherwise stored unscheduled. */
  function CreateDraft(s: State, n: NewAnnouncement): (r: Result<(State, AnnouncementId), AnnouncementError>)
    ensures r.Failure? <==> n.draft == Some(false)
    ensures r.Failure? ==> r.error == DraftSetToFalse
    ensures r.Success? ==> var (t, id) := r.value;
      && (WellFormed(s) ==> id !in s.store)
      && t.store == s.store[id := Stored(n, None)] && t.queue == s.queue
    ensures r.Success? && WellFormed(s) ==> WellFormed(r.value.0)
  {
    if n.draft == Some(false) then Failure(DraftSetToFalse)
    else Success((State(s.store[s.nextId := Stored(n, None)], s.queue, s.nextJob, s.nextId + 1), s.nextId))
  }

  /** `createScheduledAnnouncement`: the new announcement and a new job for it at `scheduledAt`. */
  function CreateScheduled(s: State, n: NewAnnouncement): (r: (State, AnnouncementId))
    ensures var (t, id) := r;
      && id in t.store && t.store[id].jobId.Some?
      && var j := t.store[id].jobId.value;
      && t.store == s.store[id := Stored(n, Some(j))]
      && t.queue == s.queue[j := Job(id, n.scheduledAt)]
      && (WellFormed(s) ==> id !in s.store && j !in s.queue && WellFormed(t))
  {
    var id := s.nextId;
    var j := s.nextJob;
    (State(s.store[id := Stored(n, Some(j))], s.queue[j := Job(id, n.scheduledAt)], j + 1, id + 1), id)
  }

  /**
   * `updateAndRescheduleAnnouncement`: the old job (if any) leaves the queue, a new job
   * at the new time joins it, and the announcement takes the patch and the new job id.
   */
  function Reschedule(s: State, id: AnnouncementId, p: Patch): (t: State)
    requires id in s.store
    ensures id in t.store && t.store[id].jobId.Some?
    ensures var a := s.store[id]; var j := t.store[id].jobId.value;
      && t.store == s.store[id := Apply(a, p, Some(j))]
      && j in t.queue && t.queue[j] == Job(id, NewScheduledAt(a, p))
      && (a.jobId.Some? && a.jobId != Some(j) ==> a.jobId.value !in t.queue)
      && (forall k :: k in s.queue && Some(k) != a.jobId && k != j ==> k in t.queue && t.queue[k] == s.queue[k])
      && (WellFormed(s) ==> j !in s.queue && t.queue.Keys == s.queue.Keys - (if a.jobId.Some? then {a.jobId.value} else {}) + {j})
    ensures WellFormed(s) ==> WellFormed(t)
  {
    var a := s.store[id];
    var queue := if a.jobId.Some? then s.queue - {a.jobId.value} else s.queue;
    var j := s.nextJob;
    State(s.store[id := Apply(a, p, Some(j))], queue[j := Job(id, NewScheduledAt(a, p))], j + 1, s.nextId)
  }

  /** `updateAnnouncementAndRemoveJob`: refused without a job; otherwise patch, clear `jobId`, drop the job. */
  function RemoveJob(s: State, id: AnnouncementId, p: Patch): (r: Result<State, AnnouncementError>)
    requires id in s.store
    ensures r.Failure? <==> s.store[id].jobId.None?
    ensures r.Failure? ==> r.error == JobNotFound
    ensures r.Success? ==>
      && r.value.store == s.store[id := Apply(s.store[id], p, None)]
      && r.value.queue == s.queue - {s.store[id].jobId.value}
    ensures r.Success? && WellFormed(s) ==> WellFormed(r.value) && s.store[id].jobId.value in s.queue
  {
    var a := s.store[id];
    if a.jobId.None? then Failure(JobNotFound)
    else Success(State(s.store[id := Apply(a, p, None)], s.queue - {a.jobId.value}, s.nextJob, s.nextId))
  }

  /** `updateAnnouncementAndAddJob`: refused with a job already there; otherwise queue one and record it. */
  function AddJob(s: State, id: AnnouncementId, p: Patch): (r: Result<State, AnnouncementError>)
    requires id in s.store
    ensures r.Failure? <==> s.store[id].jobId.Some?
    ensures r.Failure? ==> r.error == JobAlreadyExists
    ensures r.Success? ==> id in r.value.store && r.value.store[id].jobId.Some?
    ensures r.Success? ==> var j := r.value.store[id].jobId.value;
      && r.value.store == s.store[id := Apply(s.store[id], p, Some(j))]
      && r.value.queue == s.queue[j := Job(id, NewScheduledAt(s.store[id], p))]
      && (WellFormed(s) ==> j !in s.queue && WellFormed(r.value))
  {
    var a := s.store[id];
    if a.jobId.Some? then Failure(JobAlreadyExists)
    else
      var j := s.nextJob;
      Success(State(s.store[id := Apply(a, p, Some(j))], s.queue[j := Job(id, NewScheduledAt(a, p))], j + 1, s.nextId))
  }

  /** `onDestroyAnnouncement`: the job leaves the queue when a job id is given. */
  function Destroy(queue: map<JobId, Job>, jobId: Option<JobId>): (q: map<JobId, Job>)
    ensures jobId.None? ==> q == queue
    ensures jobId.Some? ==> jobId.value !in q && q.Keys == queue.Keys - {jobId.value}
    ensures forall k :: k in q ==> q[k] == queue[k]
  {
    if jobId.Some? then queue - {jobId.value} else queue
  }

  /** `deleteAnnouncementById`: the announcement goes, and with it (through its removal hook) its job. */
  function Delete(s: State, id: AnnouncementId): (r: (State, Option<Announcement>))
    ensures id !in s.store ==> r == (s, None)
    ensures id in s.store ==>
      r.1 == Some(s.store[id]) && r.0.store == s.store - {id} && r.0.queue == Destroy(s.queue, s.store[id].jobId)
    ensures WellFormed(s) ==> WellFormed(r.0) && forall j :: j in r.0.queue ==> r.0.queue[j].announcementId != id
  {
    if id in s.store then
      (State(s.store - {id}, Destroy(s.queue, s.store[id].jobId), s.nextJob, s.nextId), Some(s.store[id]))
    else (s, None)
  }

  /** Removing and adding the job back leaves exactly one live job again, at the (possibly new) time. */
  lemma RemoveThenAddJob(s: State, id: AnnouncementId, p: Patch, p': Patch)
    requires WellFormed(s) && id in s.store && s.store[id].jobId.Some?
    ensures RemoveJob(s, id, p).Success?
    ensures var t := RemoveJob(s, id, p).value;
      && AddJob(t, id, p').Success?
      && var u := AddJob(t, id, p').value;
      && WellFormed(u)
      && |set j | j in u.queue && u.queue[j].announcementId == id| == 1
  {
    var t := RemoveJob(s, id, p).value;
    var u := AddJob(t, id, p').value;
    var j := u.store[id].jobId.value;
    assert (set k | k in u.queue && u.queue[k].announcementId == id) == {j};
  }

  // ---------------------------------------------------------------------------
  // classification and dispatch

  datatype AnnouncementType = DiscordPublic | DiscordPrivate | Unknown

  /**
   * `generateAnnouncementType`: public whenever channels are given (even alongside users
   * or roles), private for users or roles, unknown otherwise. Presence is what counts:
   * an empty list is still present.
   */
  function GenerateAnnouncementType(t: Target): (k: AnnouncementType)
    ensures k == DiscordPublic <==> t.options.channelIds.Some?
    ensures k == DiscordPrivate <==> t.options.channelIds.None? && (t.options.userIds.Some? || t.options.roleIds.Some?)
    ensures k == Unknown <==> t.options.channelIds.None? && t.options.userIds.None? && t.options.roleIds.None?
  {
    if t.options.channelIds.Some? then DiscordPublic
    else if t.options.userIds.Some? || t.options.roleIds.Some? then DiscordPrivate
    else Unknown
  }

  /** The two sagas a fired job can start: messages to channels, and the safety message to a channel. */
  datatype SagaKind = SendMessageToChannel | SendMessageToUser
  datatype SagaStart = SagaStart(kind: SagaKind, announcementId: AnnouncementId, channels: seq<string>, message: string)

  const SafetyMessageInChannel := "To verify the authenticity of a message send to you by the community manager(s) via TogetherCrew, verify the bot ID is TogetherCrew Bot#2107"

  /** The sagas one target starts when its announcement fires. */
  function TargetSagas(id: AnnouncementId, t: Target): (r: seq<SagaStart>)
    ensures |r| <= 2
    ensures forall s :: s in r ==> s.announcementId == id
  {
    (if t.options.channelIds.Some? then [SagaStart(SendMessageToChannel, id, t.options.channelIds.value, t.template)] else [])
    + (match t.options.safetyMessageChannelId
       case Some(c) => if c != "" then [SagaStart(SendMessageToUser, id, [c], SafetyMessageInChannel)] else []
       case None => [])
  }

  /** The sagas of all targets, in target order. */
  function DispatchPlan(id: AnnouncementId, data: seq<Target>): (r: seq<SagaStart>)
    ensures |r| <= 2 * |data|
  {
    if data == [] then [] else DispatchPlan(id, data[..|data| - 1]) + TargetSagas(id, data[|data| - 1])
  }

  /**
   * A target starts a channel saga with its channels and template exactly when it is
   * classified public, and the in-channel safety notice exactly when it names a safety channel.
   */
  lemma TargetSagasByType(id: AnnouncementId, t: Target)
    ensures (exists s :: s in TargetSagas(id, t) && s.kind == SendMessageToChannel)
      <==> GenerateAnnouncementType(t) == DiscordPublic
    ensures GenerateAnnouncementType(t) == DiscordPublic ==>
      SagaStart(SendMessageToChannel, id, t.options.channelIds.value, t.template) in TargetSagas(id, t)
    ensures (exists s :: s in TargetSagas(id, t) && s.kind == SendMessageToUser)
      <==> t.options.safetyMessageChannelId.Some? && t.options.safetyMessageChannelId.value != ""
    ensures forall s :: s in TargetSagas(id, t) && s.kind == SendMessageToUser ==>
      s.channels == [t.options.safetyMessageChannelId.value] && s.message == SafetyMessageInChannel
  {
    if GenerateAnnouncementType(t) == DiscordPublic {
      assert TargetSagas(id, t)[0].kind == SendMessageToChannel;
    }
    if t.options.safetyMessageChannelId.Some? && t.options.safetyMessageChannelId.value != "" {
      assert TargetSagas(id, t)[|TargetSagas(id, t)| - 1].kind == SendMessageToUser;
    }
  }

  /** Every started saga carries the fired announcement's id and comes from one of its targets. */
  lemma {:induction false} DispatchPlanFromTargets(id: AnnouncementId, data: seq<Target>)
    ensures forall s :: s in DispatchPlan(id, data) ==>
      s.announcementId == id && exists t :: t in data && s in TargetSagas(id, t)
  {
    if data != [] {
      DispatchPlanFromTargets(id, data[..|data| - 1]);
      assert forall t :: t in data[..|data| - 1] ==> t in data;
      assert data[|data| - 1] in data;
    }
  }

  /**
   * Targets are dispatched in order: the plan for `p + q` is the plan for `p` followed by
   * that for `q`, and one target starts exactly its own sagas.
   */
  lemma {:induction false} DispatchPlanAppend(id: AnnouncementId, p: seq<Target>, q: seq<Target>)
    ensures DispatchPlan(id, p + q) == DispatchPlan(id, p) + DispatchPlan(id, q)
    decreases |q|
  {
    if q == [] {
      assert p + q == p;
    } else {
      DispatchPlanAppend(id, p, q[..|q| - 1]);
      assert (p + q)[..|p + q| - 1] == p + q[..|q| - 1];
      assert (p + q)[|p + q| - 1] == q[|q| - 1];
    }
  }

  lemma DispatchPlanSingle(id: AnnouncementId, t: Target)
    ensures DispatchPlan(id, [t]) == TargetSagas(id, t)
  {
    assert [t][..0] == [];
  }

  // ---------------------------------------------------------------------------
  // private messages

  /** `saga.data.safetyMessageReference`: where the safety notice was posted. */
  datatype SafetyReference = SafetyReference(guidId: string, channelId: string, messageId: string)

  /** One entry of `saga.data.info`. */
  datatype Delivery = Delivery(discordId: string, message: string)

  datatype SagaData = SagaData(announcementId: AnnouncementId, safetyMessageReference: SafetyReference, info: seq<Delivery>)

  const ChannelsUrl := "https://discord.com/channels/"

  /** `https://discord.com/channels/{guild}/{channel}/{message}` for the posted safety message. */
  function SafetyLink(ref: SafetyReference): (link: string)
    ensures StartsWith(link, ChannelsUrl)
  {
    ChannelsUrl + ref.guidId + "/" + ref.channelId + "/" + ref.messageId
  }

  /**
   * For ids free of `/` (Discord snowflakes), the link can be taken apart again: after
   * the fixed prefix, splitting at `/` gives the guild, channel and message ids in order.
   */
  lemma SafetyLinkSplits(ref: SafetyReference)
    requires '/' !in ref.guidId && '/' !in ref.channelId && '/' !in ref.messageId
    ensures Split(SafetyLink(ref)[|ChannelsUrl|..], '/') == [ref.guidId, ref.channelId, ref.messageId]
  {
    var parts := [ref.guidId, ref.channelId, ref.messageId];
    assert Join(parts, '/') == ref.guidId + "/" + ref.channelId + "/" + ref.messageId by {
      assert parts[1..] == [ref.channelId, ref.messageId];
      assert parts[1..][1..] == [ref.messageId];
      assert Join([ref.messageId], '/') == ref.messageId;
      assert Join(parts[1..], '/') == ref.channelId + ['/'] + ref.messageId;
      assert Join(parts, '/') == ref.guidId + ['/'] + (ref.channelId + ['/'] + ref.messageId);
    }
    SplitJoin(parts, '/');
    assert SafetyLink(ref)[|ChannelsUrl|..] == ref.guidId + "/" + ref.channelId + "/" + ref.messageId;
  }

  const NoticeIndent := "                "
  const NoticeHead := "*This message was sent to you because you\U{2019}re part of [community].\n" + NoticeIndent
    + "To verify the legitimacy of this message, \n" + NoticeIndent
    + "see the instruction sent to you inside the community's server to verify the bot ID: "

  /** The safety notice appended to every private message. */
  function SafetyNotice(link: string): string {
    NoticeHead + link + "\n" + NoticeIndent
  }

  /**
   * One recipient's message: the template rendered with `username` set to `<@id>`, a
   * newline, then the safety notice. `render` stands for compiling and applying the
   * Handlebars template.
   */
  function ComposeMessage(render: (string, string) -> string, template: string, discordId: string,
                          ref: SafetyReference): (message: string)
    ensures StartsWith(message, render(template, "<@" + discordId + ">") + "\n" + NoticeHead)
    ensures OccursAt(message, SafetyLink(ref), |render(template, "<@" + discordId + ">")| + 1 + |NoticeHead|)
  {
    var head := render(template, "<@" + discordId + ">") + "\n" + NoticeHead;
    var message := head + SafetyLink(ref) + "\n" + NoticeIndent;
    assert message[..|head|] == head;
    assert message[|head|..|head| + |SafetyLink(ref)|] == SafetyLink(ref);
    message
  }

  predicate NoDuplicates(xs: seq<string>) {
    forall i, j :: 0 <= i < j < |xs| ==> xs[i] != xs[j]
  }

  /** Adding each of `xs` to the insertion-ordered set `acc`, as `Set.add` does. */
  function AddAll(acc: seq<string>, xs: seq<string>): (r: seq<string>)
    ensures forall x :: x in r <==> x in acc || x in xs
    ensures |r| >= |acc| && r[..|acc|] == acc
    ensures NoDuplicates(acc) ==> NoDuplicates(r)
  {
    if xs == [] then acc
    else
      var r := AddAll(acc, xs[..|xs| - 1]);
      var x := xs[|xs| - 1];
      assert forall y :: y in xs <==> y in xs[..|xs| - 1] || y == x;
      if x in r then r else r + [x]
  }

  /**
   * The recipients of one target: its users, then the members of its roles, then the
   * members of its engagement categories, each id once in first-seen order. `roleMembers`
   * and `categoryMembers` stand for the tenant lookups on the target's platform.
   */
  function Recipients(t: Target, roleMembers: (string, seq<string>) -> seq<string>,
                      categoryMembers: (string, seq<string>) -> seq<string>): (r: seq<string>)
    ensures NoDuplicates(r)
  {
    var users := if t.options.userIds.Some? then t.options.userIds.value else [];
    var roles := if t.options.roleIds.Some? then roleMembers(t.platform, t.options.roleIds.value) else [];
    var cohort := if t.options.engagementCategories.Some? then categoryMembers(t.platform, t.options.engagementCategories.value) else [];
    AddAll(AddAll(AddAll([], users), roles), cohort)
  }

  /** A target is fanned out privately when it names users, roles or engagement categories. */
  predicate HasPrivateAudience(t: Target) {
    t.options.userIds.Some? || t.options.roleIds.Some? || t.options.engagementCategories.Some?
  }

  /** The message entries of one target, one per recipient. */
  function TargetDeliveries(t: Target, recipients: seq<string>, render: (string, string) -> string,
                            ref: SafetyReference): (r: seq<Delivery>)
    ensures |r| == |recipients|
    ensures forall k :: 0 <= k < |r| ==> r[k] == Delivery(recipients[k], ComposeMessage(render, t.template, recipients[k], ref))
  {
    if recipients == [] then []
    else
      TargetDeliveries(t, recipients[..|recipients| - 1], render, ref)
      + [Delivery(recipients[|recipients| - 1], ComposeMessage(render, t.template, recipients[|recipients| - 1], ref))]
  }

  /** The entries of all targets with a private audience, in target order. */
  function PrivatePlan(data: seq<Target>, roleMembers: (string, seq<string>) -> seq<string>,
                       categoryMembers: (string, seq<string>) -> seq<string>,
                       render: (string, string) -> string, ref: SafetyReference): (r: seq<Delivery>)
    ensures (forall t :: t in data ==> !HasPrivateAudience(t)) ==> r == []
  {
    if data == [] then []
    else
      var t := data[|data| - 1];
      PrivatePlan(data[..|data| - 1], roleMembers, categoryMembers, render, ref)
      + (if HasPrivateAudience(t) then TargetDeliveries(t, Recipients(t, roleMembers, categoryMembers), render, ref) else [])
  }

  /**
   * Within one target every recipient gets exactly one message: the recipients are
   * duplicate-free and are exactly the union of the users, the role members and the
   * category members.
   */
  lemma RecipientsAreUnion(t: Target, roleMembers: (string, seq<string>) -> seq<string>,
                           categoryMembers: (string, seq<string>) -> seq<string>)
    ensures NoDuplicates(Recipients(t, roleMembers, categoryMembers))
    ensures forall id :: id in Recipients(t, roleMembers, categoryMembers) <==>
      (t.options.userIds.Some? && id in t.options.userIds.value)
      || (t.options.roleIds.Some? && id in roleMembers(t.platform, t.options.roleIds.value))
      || (t.options.engagementCategories.Some? && id in categoryMembers(t.platform, t.options.engagementCategories.value))
  {
  }

  /** A target classified `unknown` that names engagement categories is still messaged privately. */
  lemma UnknownTargetStillFannedOut(t: Target)
    requires t.options.engagementCategories.Some?
    ensures HasPrivateAudience(t)
    ensures t.options.channelIds.None? && t.options.userIds.None? && t.options.roleIds.None? ==>
      GenerateAnnouncementType(t) == Unknown
  {
  }

  /** Every entry of the plan is a composed message for a recipient of one of the targets. */
  lemma {:induction false} PrivatePlanEntries(data: seq<Target>, roleMembers: (string, seq<string>) -> seq<string>,
                                              categoryMembers: (string, seq<string>) -> seq<string>,
                                              render: (string, string) -> string, ref: SafetyReference)
    ensures forall d :: d in PrivatePlan(data, roleMembers, categoryMembers, render, ref) ==>
      exists t :: t in data && HasPrivateAudience(t) && d.discordId in Recipients(t, roleMembers, categoryMembers)
        && d.message == ComposeMessage(render, t.template, d.discordId, ref)
  {
    if data != [] {
      var init := data[..|data| - 1];
      var t := data[|data| - 1];
      PrivatePlanEntries(init, roleMembers, categoryMembers, render, ref);
      assert forall u :: u in init ==> u in data;
      assert t in data;
      if HasPrivateAudience(t) {
        var ds := TargetDeliveries(t, Recipients(t, roleMembers, categoryMembers), render, ref);
        forall d | d in ds
          ensures d.discordId in Recipients(t, roleMembers, categoryMembers)
            && d.message == ComposeMessage(render, t.template, d.discordId, ref)
        {
          var k :| 0 <= k < |ds| && ds[k] == d;
        }
      }
    }
  }

  // ---------------------------------------------------------------------------
  // the service

  /** The announcement collection and the announcement queue, changed in place. */
  class Scheduler {
    var store: map<AnnouncementId, Announcement>
    var queue: map<JobId, Job>
    var nextJob: JobId
    var nextId: AnnouncementId

    function Snapshot(): State
      reads this
    {
      State(store, queue, nextJob, nextId)
    }

    ghost predicate Valid()
      reads this
    {
      WellFormed(Snapshot())
    }

    constructor ()
      ensures Valid() && store == map[] && queue == map[]
    {
      store := map[];
      queue := map[];
      nextJob := 1;
      nextId := 0;
    }

    /** `addJobToAnnouncementQueue(announcementId, {announcementId}, at)`: a job under a new id. */
    method EnqueueJob(id: AnnouncementId, at: Option<Time>) returns (j: JobId)
      modifies this
      ensures j == old(nextJob) && nextJob == j + 1
      ensures queue == old(queue)[j := Job(id, at)]
      ensures store == old(store) && nextId == old(nextId)
    {
      j := nextJob;
      queue := queue[j := Job(id, at)];
      nextJob := nextJob + 1;
    }

    /** `removeJobFromAnnouncementQueue(jobId)`. */
    method DequeueJob(j: JobId)
      modifies this
      ensures queue == old(queue) - {j}
      ensures store == old(store) && nextJob == old(nextJob) && nextId == old(nextId)
    {
      queue := queue - {j};
    }

    method CreateDraftAnnouncement(n: NewAnnouncement) returns (r: Result<AnnouncementId, AnnouncementError>)
      requires Valid()
      modifies this
      ensures Valid()
      ensures match CreateDraft(old(Snapshot()), n)
        case Failure(e) => r == Failure(e) && Snapshot() == old(Snapshot())
        case Success(v) => r == Success(v.1) && Snapshot() == v.0
    {
      if n.draft == Some(false) {
        return Failure(DraftSetToFalse);
      }
      var id := nextId;
      store := store[id := Stored(n, None)];
      nextId := nextId + 1;
      return Success(id);
    }

    method CreateScheduledAnnouncement(n: NewAnnouncement) returns (id: AnnouncementId)
      requires Valid()
      modifies this
      ensures Valid()
      ensures (Snapshot(), id) == CreateScheduled(old(Snapshot()), n)
    {
      id := nextId;
      store := store[id := Stored(n, None)];
      nextId := nextId + 1;
      var j := EnqueueJob(id, n.scheduledAt);
      store := store[id := store[id].(jobId := Some(j))];
      assert store == old(store)[id := Stored(n, Some(j))];
    }

    method UpdateAndRescheduleAnnouncement(id: AnnouncementId, p: Patch) returns (a: Announcement)
      requires Valid() && id in store
      modifies this
      ensures Valid()
      ensures Snapshot() == Reschedule(old(Snapshot()), id, p)
      ensures a == store[id]
    {
      var old_ := store[id];
      if old_.jobId.Some? {
        DequeueJob(old_.jobId.value);
      }
      var j := EnqueueJob(id, NewScheduledAt(old_, p));
      a := Apply(old_, p, Some(j));
      store := store[id := a];
    }

    method UpdateAnnouncementAndRemoveJob(id: AnnouncementId, p: Patch) returns (r: Result<Announcement, AnnouncementError>)
      requires Valid() && id in store
      modifies this
      ensures Valid()
      ensures match RemoveJob(old(Snapshot()), id, p)
        case Failure(e) => r == Failure(e) && Snapshot() == old(Snapshot())
        case Success(t) => Snapshot() == t && r == Success(t.store[id])
    {
      var old_ := store[id];
      if old_.jobId.None? {
        return Failure(JobNotFound);
      }
      var a := Apply(old_, p, None);
      store := store[id := a];
      DequeueJob(old_.jobId.value);
      return Success(a);
    }

    method UpdateAnnouncementAndAddJob(id: AnnouncementId, p: Patch) returns (r: Result<Announcement, AnnouncementError>)
      requires Valid() && id in store
      modifies this
      ensures Valid()
      ensures match AddJob(old(Snapshot()), id, p)
        case Failure(e) => r == Failure(e) && Snapshot() == old(Snapshot())
        case Success(t) => Snapshot() == t && r == Success(t.store[id])
    {
      var old_ := store[id];
      if old_.jobId.Some? {
        return Failure(JobAlreadyExists);
      }
      var j := EnqueueJob(id, NewScheduledAt(old_, p));
      var a := Apply(old_, p, Some(j));
      store := store[id := a];
      return Success(a);
    }

    /** `onDestroyAnnouncement`: removes the job only when given one. */
    method OnDestroyAnnouncement(jobId: Option<JobId>)
      modifies this
      ensures queue == Destroy(old(queue), jobId)
      ensures store == old(store) && nextJob == old(nextJob) && nextId == old(nextId)
    {
      if jobId.Some? {
        DequeueJob(jobId.value);
      }
    }

    method DeleteAnnouncementById(id: AnnouncementId) returns (r: Option<Announcement>)
      requires Valid()
      modifies this
      ensures Valid()
      ensures (Snapshot(), r) == Delete(old(Snapshot()), id)
    {
      if id !in store {
        return None;
      }
      var a := store[id];
      store := store - {id};
      OnDestroyAnnouncement(a.jobId);
      return Some(a);
    }

    /** `bullMQTriggeredAnnouncement`: the sagas started for each target of the fired announcement. */
    method BullMQTriggeredAnnouncement(id: AnnouncementId) returns (sagas: seq<SagaStart>, a: Option<Announcement>)
      ensures a == (if id in store then Some(store[id]) else None)
      ensures sagas == if id in store then DispatchPlan(id, store[id].data) else []
    {
      if id !in store {
        return [], None;
      }
      var data := store[id].data;
      sagas := [];
      var i := 0;
      while i < |data|
        invariant 0 <= i <= |data|
        invariant sagas == DispatchPlan(id, data[..i])
      {
        assert data[..i + 1][..i] == data[..i];
        var t := data[i];
        if t.options.channelIds.Some? {
          sagas := sagas + [SagaStart(SendMessageToChannel, id, t.options.channelIds.value, t.template)];
        }
        if t.options.safetyMessageChannelId.Some? && t.options.safetyMessageChannelId.value != "" {
          sagas := sagas + [SagaStart(SendMessageToUser, id, [t.options.safetyMessageChannelId.value], SafetyMessageInChannel)];
        }
        i := i + 1;
      }
      assert data[..i] == data;
      return sagas, Some(store[id]);
    }

    /**
     * `sendPrivateMessageToUser`: for each target with a private audience, the recipients
     * gathered into an insertion-ordered set, then one composed message per recipient;
     * the entries replace `saga.data.info`.
     */
    method SendPrivateMessageToUser(saga: SagaData, roleMembers: (string, seq<string>) -> seq<string>,
                                    categoryMembers: (string, seq<string>) -> seq<string>,
                                    render: (string, string) -> string) returns (saga': SagaData)
      ensures saga' == saga.(info := if saga.announcementId in store
        then PrivatePlan(store[saga.announcementId].data, roleMembers, categoryMembers, render, saga.safetyMessageReference)
        else [])
    {
      var ref := saga.safetyMessageReference;
      var info: seq<Delivery> := [];
      if saga.announcementId in store {
        var data := store[saga.announcementId].data;
        var i := 0;
        while i < |data|
          invariant 0 <= i <= |data|
          invariant info == PrivatePlan(data[..i], roleMembers, categoryMembers, render, ref)
        {
          assert data[..i + 1][..i] == data[..i];
          var entries := TargetEntries(data[i], roleMembers, categoryMembers, render, ref);
          info := info + entries;
          i := i + 1;
        }
        assert data[..i] == data;
      }
      saga' := saga.(info := info);
    }

    /** The entries one target adds: its recipients gathered into a set, then one message each. */
    static method TargetEntries(t: Target, roleMembers: (string, seq<string>) -> seq<string>,
                                categoryMembers: (string, seq<string>) -> seq<string>,
                                render: (string, string) -> string, ref: SafetyReference) returns (entries: seq<Delivery>)
      ensures entries == if HasPrivateAudience(t) then TargetDeliveries(t, Recipients(t, roleMembers, categoryMembers), render, ref) else []
    {
      entries := [];
      if HasPrivateAudience(t) {
        var ids := GatherRecipients(t, roleMembers, categoryMembers);
        entries := ComposeAll(t, ids, render, ref);
      }
    }

    /** The insertion-ordered set of one target's recipients. */
    static method GatherRecipients(t: Target, roleMembers: (string, seq<string>) -> seq<string>,
                                   categoryMembers: (string, seq<string>) -> seq<string>) returns (ids: seq<string>)
      ensures ids == Recipients(t, roleMembers, categoryMembers)
    {
      ids := [];
      if t.options.userIds.Some? {
        ids := AddEach(ids, t.options.userIds.value);
      }
      if t.options.roleIds.Some? {
        ids := AddEach(ids, roleMembers(t.platform, t.options.roleIds.value));
      }
      if t.options.engagementCategories.Some? {
        ids := AddEach(ids, categoryMembers(t.platform, t.options.engagementCategories.value));
      }
    }

    /** `allDiscordIds.forEach(...)`: one composed message per recipient, in set order. */
    static method ComposeAll(t: Target, ids: seq<string>, render: (string, string) -> string, ref: SafetyReference)
      returns (entries: seq<Delivery>)
      ensures entries == TargetDeliveries(t, ids, render, ref)
    {
      entries := [];
      var k := 0;
      while k < |ids|
        invariant 0 <= k <= |ids|
        invariant entries == TargetDeliveries(t, ids[..k], render, ref)
      {
        assert ids[..k + 1][..k] == ids[..k];
        entries := entries + [Delivery(ids[k], ComposeMessage(render, t.template, ids[k], ref))];
        k := k + 1;
      }
      assert ids[..k] == ids;
    }

    /** `xs.forEach(id => set.add(id))` on the insertion-ordered set `acc`. */
    static method AddEach(acc: seq<string>, xs: seq<string>) returns (r: seq<string>)
      ensures r == AddAll(acc, xs)
    {
      r := acc;
      var i := 0;
      while i < |xs|
        invariant 0 <= i <= |xs|
        invariant r == AddAll(acc, xs[..i])
      {
        assert xs[..i + 1][..i] == xs[..i];
        if xs[i] !in r {
          r := r + [xs[i]];
        }
        i := i + 1;
      }
      assert xs[..i] == xs;
    }
  }
}

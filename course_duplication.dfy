/**
 * `Course::DuplicationService#duplicate`, at the level of detail its test file
 * states: a course aggregate is copied under fresh identities, every start,
 * end and bonus-end time moves by the difference between the requested start
 * date and the course's start date, the registration key is cleared, attachment references are new
 * rows pointing at the same attachment, folders and materials keep their audit
 * metadata (creation and update times included) verbatim, and conditions are re-pointed at the duplicated entities.
 *
 * Timestamps are whole seconds. Identities come from a counter (the database's
 * id sequence) and are recorded in an identity map keyed by entity kind and
 * original id, as each table has its own id space.
 */
module CourseDuplication {
  import opened Wrappers

  type Id = nat
  type UserId = nat
  /** A point in time, in seconds. */
  type Time = int

  // ---------------------------------------------------------------------------
  // Generic sequence helpers
  // ---------------------------------------------------------------------------

  /** `map`: apply f to every element, keeping the order. */
  function MapSeq<T, U>(s: seq<T>, f: T -> U): (r: seq<U>)
    ensures |r| == |s| && forall i :: 0 <= i < |s| ==> r[i] == f(s[i])
  {
    seq(|s|, i requires 0 <= i < |s| => f(s[i]))
  }

  /** `select`: the elements satisfying p, in their original order. */
  function Filter<T>(s: seq<T>, p: T -> bool): (r: seq<T>)
    ensures |r| <= |s|
    ensures forall x :: x in r ==> x in s && p(x)
  {
    if s == [] then []
    else Filter(s[..|s| - 1], p) + (if p(s[|s| - 1]) then [s[|s| - 1]] else [])
  }

  /**
   * Selecting from a mapped sequence is mapping the selection, when f keeps
   * what the selection looks at: picking the duplicated events of a course
   * gives the duplicates of its events, in the same order.
   */
  lemma {:induction false} FilterMapCommute<T, U>(s: seq<T>, f: T -> U, p: T -> bool, q: U -> bool)
    requires forall x :: q(f(x)) == p(x)
    ensures Filter(MapSeq(s, f), q) == MapSeq(Filter(s, p), f)
  {
    if s != [] {
      var n := |s| - 1;
      assert MapSeq(s, f)[..n] == MapSeq(s[..n], f);
      FilterMapCommute(s[..n], f, p, q);
    }
  }

  /** Mapping a duplicate's attribute over a copied sequence gives the original attribute list. */
  lemma MapKeepsAttribute<T, A>(s: seq<T>, dup: T -> T, attr: T -> A)
    requires forall x :: attr(dup(x)) == attr(x)
    ensures MapSeq(MapSeq(s, dup), attr) == MapSeq(s, attr)
    ensures multiset(MapSeq(MapSeq(s, dup), attr)) == multiset(MapSeq(s, attr))
  {
    assert MapSeq(MapSeq(s, dup), attr) == MapSeq(s, attr);
  }

  // ---------------------------------------------------------------------------
  // The course aggregate
  // ---------------------------------------------------------------------------

  /** Who created and last updated a record, and when. */
  datatype Audit = Audit(creator: UserId, updater: UserId, createdAt: Time, updatedAt: Time)

  /** An attachment reference: a row of its own that points at a shared attachment. */
  datatype AttachmentReference = AttachmentReference(id: Id, attachment: Id, audit: Audit)

  /** A question of an assessment; programming questions carry an attachment reference. */
  datatype Question = Question(
    id: Id, title: string, description: string, actableType: string,
    staffOnlyComments: bool, maximumGrade: int, weight: int,
    attachment: Option<AttachmentReference>)

  /** A material: a file in a folder, held through an attachment reference. */
  datatype Material = Material(
    id: Id, name: string, description: string, audit: Audit, attachment: AttachmentReference)

  /** A material folder of the course; folders form a tree through `parent`. */
  datatype Folder = Folder(
    id: Id, course: Id, parent: Option<Id>, name: string,
    startAt: Time, endAt: Option<Time>, audit: Audit, materials: seq<Material>)

  /** An assessment, with its questions and the materials of its own folder. */
  datatype Assessment = Assessment(
    id: Id, baseExp: int, timeBonusExp: int, published: bool, bonusEndAt: Option<Time>,
    questions: seq<Question>, materials: seq<Material>)

  /** What a lesson plan item acts as. */
  datatype Actable =
    | AssessmentActable(assessment: Assessment)
    | EventActable(eventId: Id, eventType: string)

  /** A lesson plan item: the common part of assessments and events. */
  datatype LessonPlanItem = LessonPlanItem(
    id: Id, course: Id, title: string, description: string,
    startAt: Time, endAt: Option<Time>, actable: Actable)

  datatype Milestone = Milestone(id: Id, course: Id, title: string, description: string, startAt: Time)
  datatype Level = Level(id: Id, course: Id, experiencePointsThreshold: int)
  datatype Forum = Forum(id: Id, course: Id, name: string, slug: string, description: string)
  datatype SkillBranch = SkillBranch(id: Id, course: Id, title: string, description: string)
  datatype Skill = Skill(id: Id, course: Id, branch: Option<Id>, title: string, description: string)
  datatype Achievement = Achievement(
    id: Id, course: Id, title: string, description: string, weight: int, published: bool)

  /** The kind of a condition: what its target is. */
  datatype ConditionType = AchievementCondition | AssessmentCondition | LevelCondition

  /** What a condition gates: the polymorphic `conditional`, an achievement or an assessment. */
  datatype ConditionalType = GatedAchievement | GatedAssessment

  /** A condition: `conditional` (of type `conditionalType`) is gated on `target` (of type `kind`). */
  datatype Condition = Condition(
    id: Id, course: Id, kind: ConditionType, conditionalType: ConditionalType, conditional: Id, target: Id)

  /** The course aggregate. */
  datatype Course = Course(
    id: Id, title: string, startAt: Time, endAt: Option<Time>, registrationKey: Option<string>,
    items: seq<LessonPlanItem>, milestones: seq<Milestone>, levels: seq<Level>,
    forums: seq<Forum>, branches: seq<SkillBranch>, skills: seq<Skill>,
    achievements: seq<Achievement>, conditions: seq<Condition>, folders: seq<Folder>)

  // ---------------------------------------------------------------------------
  // Identities
  // ---------------------------------------------------------------------------

  datatype EntityKind =
    | CourseKind | ItemKind | AssessmentKind | EventKind | QuestionKind | MaterialKind
    | ReferenceKind | FolderKind | MilestoneKind | LevelKind | ForumKind | BranchKind
    | SkillKind | AchievementKind | ConditionKind

  /** An identity-map key: entity kind and original id. */
  datatype Key = Key(kind: EntityKind, id: Id)

  /** The identity map of one duplication run: original key to new id. */
  type IdentityMap = map<Key, Id>

  function MaterialsKeys(ms: seq<Material>): set<Key> {
    (set m | m in ms :: Key(MaterialKind, m.id)) + (set m | m in ms :: Key(ReferenceKind, m.attachment.id))
  }

  function AssessmentKeys(a: Assessment): set<Key> {
    {Key(AssessmentKind, a.id)}
    + (set q | q in a.questions :: Key(QuestionKind, q.id))
    + (set q | q in a.questions && q.attachment.Some? :: Key(ReferenceKind, q.attachment.value.id))
    + MaterialsKeys(a.materials)
  }

  function ItemKeys(it: LessonPlanItem): set<Key> {
    {Key(ItemKind, it.id)} +
    match it.actable
    case AssessmentActable(a) => AssessmentKeys(a)
    case EventActable(e, _) => {Key(EventKind, e)}
  }

  function FolderKeys(f: Folder): set<Key> {
    {Key(FolderKind, f.id)} + MaterialsKeys(f.materials)
  }

  /** Every record the course owns, by kind and id. */
  function OwnedKeys(c: Course): set<Key> {
    {Key(CourseKind, c.id)}
    + (set it, k | it in c.items && k in ItemKeys(it) :: k)
    + (set m | m in c.milestones :: Key(MilestoneKind, m.id))
    + (set l | l in c.levels :: Key(LevelKind, l.id))
    + (set f | f in c.forums :: Key(ForumKind, f.id))
    + (set b | b in c.branches :: Key(BranchKind, b.id))
    + (set s | s in c.skills :: Key(SkillKind, s.id))
    + (set a | a in c.achievements :: Key(AchievementKind, a.id))
    + (set x | x in c.conditions :: Key(ConditionKind, x.id))
    + (set f, k | f in c.folders && k in FolderKeys(f) :: k)
  }

  /** The ids the original records already have. */
  function OriginalIds(c: Course): set<Id> {
    set k | k in OwnedKeys(c) :: k.id
  }

  /** No two keys of the map get the same new id. */
  ghost predicate Injective(ids: IdentityMap) {
    forall k1, k2 :: k1 in ids && k2 in ids && k1 != k2 ==> ids[k1] != ids[k2]
  }

  /**
   * The map the service builds for course c: it covers every owned record,
   * hands out distinct ids, and none of them is an id an original record has.
   */
  ghost predicate FreshFor(ids: IdentityMap, c: Course) {
    && OwnedKeys(c) <= ids.Keys
    && Injective(ids)
    && forall k :: k in ids ==> ids[k] !in OriginalIds(c)
  }

  /** The new id of an original record; used only on keys the map holds. */
  function NewId(ids: IdentityMap, kind: EntityKind, id: Id): Id {
    var k := Key(kind, id);
    if k in ids then ids[k] else 0
  }

  /** Resolving a reference through the identity map, which fails on an unknown key. */
  function Resolve(ids: IdentityMap, kind: EntityKind, id: Id): (r: Option<Id>)
    ensures r.Some? <==> Key(kind, id) in ids
    ensures r.Some? ==> r.value == ids[Key(kind, id)]
  {
    if Key(kind, id) in ids then Some(ids[Key(kind, id)]) else None
  }

  // ---------------------------------------------------------------------------
  // Time shift
  // ---------------------------------------------------------------------------

  /** An absent timestamp stays absent; a present one moves by `shift`. */
  function ShiftOpt(t: Option<Time>, shift: int): (r: Option<Time>)
    ensures r.None? <==> t.None?
    ensures t.Some? ==> r.value - t.value == shift
  {
    match t
    case None => None
    case Some(v) => Some(v + shift)
  }

  /** Shifting back by the same amount restores the original timestamp. */
  lemma ShiftOptInverse(t: Option<Time>, shift: int)
    ensures ShiftOpt(ShiftOpt(t, shift), -shift) == t
  {
  }

  /** A shift never breaks `start <= end` (nor `start < end`), so no record fails its ordering check. */
  lemma ShiftKeepsOrder(start: Time, end: Option<Time>, shift: int)
    ensures end.Some? && start <= end.value ==> start + shift <= ShiftOpt(end, shift).value
    ensures end.Some? && start < end.value ==> start + shift < ShiftOpt(end, shift).value
  {
  }

  // ---------------------------------------------------------------------------
  // Duplicating each kind of record, given the identity map
  // ---------------------------------------------------------------------------

  /** A new reference row, same attachment, audit metadata copied verbatim. */
  function DupReference(r: AttachmentReference, ids: IdentityMap): (n: AttachmentReference)
    ensures n.attachment == r.attachment && n.audit == r.audit
    ensures Key(ReferenceKind, r.id) in ids ==> n.id == ids[Key(ReferenceKind, r.id)]
  {
    r.(id := NewId(ids, ReferenceKind, r.id))
  }

  function DupQuestion(q: Question, ids: IdentityMap): Question {
    q.(id := NewId(ids, QuestionKind, q.id),
       attachment := match q.attachment
                     case None => None
                     case Some(r) => Some(DupReference(r, ids)))
  }

  /** A material keeps its creator, updater and timestamps. */
  function DupMaterial(m: Material, ids: IdentityMap): Material {
    m.(id := NewId(ids, MaterialKind, m.id), attachment := DupReference(m.attachment, ids))
  }

  function DupAssessment(a: Assessment, ids: IdentityMap, shift: int): Assessment {
    a.(id := NewId(ids, AssessmentKind, a.id),
       bonusEndAt := ShiftOpt(a.bonusEndAt, shift),
       questions := MapSeq(a.questions, q => DupQuestion(q, ids)),
       materials := MapSeq(a.materials, m => DupMaterial(m, ids)))
  }

  function DupActable(x: Actable, ids: IdentityMap, shift: int): Actable {
    match x
    case AssessmentActable(a) => AssessmentActable(DupAssessment(a, ids, shift))
    case EventActable(e, t) => EventActable(NewId(ids, EventKind, e), t)
  }

  function DupItem(it: LessonPlanItem, ids: IdentityMap, shift: int, course: Id): LessonPlanItem {
    it.(id := NewId(ids, ItemKind, it.id), course := course,
        startAt := it.startAt + shift, endAt := ShiftOpt(it.endAt, shift),
        actable := DupActable(it.actable, ids, shift))
  }

  function DupMilestone(m: Milestone, ids: IdentityMap, shift: int, course: Id): Milestone {
    m.(id := NewId(ids, MilestoneKind, m.id), course := course, startAt := m.startAt + shift)
  }

  function DupLevel(l: Level, ids: IdentityMap, course: Id): Level {
    l.(id := NewId(ids, LevelKind, l.id), course := course)
  }

  function DupForum(f: Forum, ids: IdentityMap, course: Id): Forum {
    f.(id := NewId(ids, ForumKind, f.id), course := course)
  }

  function DupBranch(b: SkillBranch, ids: IdentityMap, course: Id): SkillBranch {
    b.(id := NewId(ids, BranchKind, b.id), course := course)
  }

  /** A skill's branch is resolved to the duplicated branch; a branch-less skill stays branch-less. */
  function DupSkill(s: Skill, ids: IdentityMap, course: Id): Skill {
    s.(id := NewId(ids, SkillKind, s.id), course := course,
       branch := match s.branch
                 case None => None
                 case Some(b) => Some(NewId(ids, BranchKind, b)))
  }

  function DupAchievement(a: Achievement, ids: IdentityMap, course: Id): Achievement {
    a.(id := NewId(ids, AchievementKind, a.id), course := course)
  }

  /** A folder's parent is resolved to the duplicated parent; its audit metadata is kept. */
  function DupFolder(f: Folder, ids: IdentityMap, shift: int, course: Id): (n: Folder)
    ensures n.course == course && n.name == f.name && n.audit == f.audit
    ensures n.startAt - f.startAt == shift && n.endAt == ShiftOpt(f.endAt, shift)
    ensures n.parent.None? <==> f.parent.None?
    ensures f.parent.Some? && Key(FolderKind, f.parent.value) in ids ==>
      n.parent == Some(ids[Key(FolderKind, f.parent.value)])
    ensures |n.materials| == |f.materials|
  {
    f.(id := NewId(ids, FolderKind, f.id), course := course,
       parent := match f.parent
                 case None => None
                 case Some(p) => Some(NewId(ids, FolderKind, p)),
       startAt := f.startAt + shift, endAt := ShiftOpt(f.endAt, shift),
       materials := MapSeq(f.materials, m => DupMaterial(m, ids)))
  }

  /** The identity-map kind of a condition's target. */
  function TargetKind(t: ConditionType): EntityKind {
    match t
    case AchievementCondition => AchievementKind
    case AssessmentCondition => AssessmentKind
    case LevelCondition => LevelKind
  }

  /** The identity-map kind of a condition's conditional. */
  function ConditionalKind(t: ConditionalType): EntityKind {
    match t
    case GatedAchievement => AchievementKind
    case GatedAssessment => AssessmentKind
  }

  /** A condition re-pointed at the duplicates of both its endpoints; None if either is unknown. */
  function DupCondition(x: Condition, ids: IdentityMap, course: Id): (r: Option<Condition>)
    ensures r.Some? <==>
      Key(ConditionalKind(x.conditionalType), x.conditional) in ids && Key(TargetKind(x.kind), x.target) in ids
    ensures r.Some? ==>
      && r.value.kind == x.kind && r.value.conditionalType == x.conditionalType && r.value.course == course
      && r.value.conditional == ids[Key(ConditionalKind(x.conditionalType), x.conditional)]
      && r.value.target == ids[Key(TargetKind(x.kind), x.target)]
  {
    match (Resolve(ids, ConditionalKind(x.conditionalType), x.conditional), Resolve(ids, TargetKind(x.kind), x.target))
    case (Some(conditional), Some(target)) =>
      Some(Condition(NewId(ids, ConditionKind, x.id), course, x.kind, x.conditionalType, conditional, target))
    case _ => None
  }

  /** Every condition of the course, duplicated in order; None as soon as one cannot be resolved. */
  function DupConditions(xs: seq<Condition>, ids: IdentityMap, course: Id): (r: Option<seq<Condition>>)
    ensures r.Some? <==> forall i :: 0 <= i < |xs| ==> DupCondition(xs[i], ids, course).Some?
    ensures r.Some? ==> |r.value| == |xs|
    ensures r.Some? ==> forall i :: 0 <= i < |xs| ==> DupCondition(xs[i], ids, course) == Some(r.value[i])
  {
    if xs == [] then Some([])
    else
      match (DupConditions(xs[..|xs| - 1], ids, course), DupCondition(xs[|xs| - 1], ids, course))
      case (Some(init), Some(last)) => Some(init + [last])
      case _ => None
  }

  /** The shift every timestamp undergoes: requested start minus the course's start. */
  function TimeShift(c: Course, newStartAt: Time): int {
    newStartAt - c.startAt
  }

  /**
   * The new course for the given identity map and already duplicated conditions:
   * fresh identities, the requested title, no registration key, and every
   * timestamp shifted.
   */
  function DuplicateCourse(c: Course, ids: IdentityMap, newStartAt: Time, newTitle: string,
                           conditions: seq<Condition>): (d: Course)
    ensures d.title == newTitle && d.registrationKey == None && d.startAt == newStartAt
    ensures Key(CourseKind, c.id) in ids ==> d.id == ids[Key(CourseKind, c.id)]
    // every family of records is copied one for one, in order
    ensures |d.items| == |c.items| && |d.milestones| == |c.milestones| && |d.levels| == |c.levels|
    ensures |d.forums| == |c.forums| && |d.branches| == |c.branches| && |d.skills| == |c.skills|
    ensures |d.achievements| == |c.achievements| && |d.folders| == |c.folders|
    ensures d.conditions == conditions
  {
    var shift := TimeShift(c, newStartAt);
    var nc := NewId(ids, CourseKind, c.id);
    Course(
      nc, newTitle, c.startAt + shift, ShiftOpt(c.endAt, shift), None,
      MapSeq(c.items, it => DupItem(it, ids, shift, nc)),
      MapSeq(c.milestones, m => DupMilestone(m, ids, shift, nc)),
      MapSeq(c.levels, l => DupLevel(l, ids, nc)),
      MapSeq(c.forums, f => DupForum(f, ids, nc)),
      MapSeq(c.branches, b => DupBranch(b, ids, nc)),
      MapSeq(c.skills, s => DupSkill(s, ids, nc)),
      MapSeq(c.achievements, a => DupAchievement(a, ids, nc)),
      conditions,
      MapSeq(c.folders, f => DupFolder(f, ids, shift, nc)))
  }

  /** The whole duplication under an identity map: None when a condition cannot be resolved. */
  function DuplicateUnder(c: Course, ids: IdentityMap, newStartAt: Time, newTitle: string): (r: Option<Course>)
    ensures r.Some? <==> forall x :: x in c.conditions ==> DupCondition(x, ids, NewId(ids, CourseKind, c.id)).Some?
    ensures r.Some? ==> r.value.title == newTitle && r.value.startAt == newStartAt && r.value.registrationKey == None
    ensures r.Some? ==> |r.value.conditions| == |c.conditions|
  {
    match DupConditions(c.conditions, ids, NewId(ids, CourseKind, c.id))
    case None => None
    case Some(conditions) => Some(DuplicateCourse(c, ids, newStartAt, newTitle, conditions))
  }

  // ---------------------------------------------------------------------------
  // Properties the duplication tests assert
  // ---------------------------------------------------------------------------

  /** The duplicate is another course, with the requested title and no registration key. */
  lemma DuplicateIsNewCourse(c: Course, ids: IdentityMap, newStartAt: Time, newTitle: string,
                             conditions: seq<Condition>)
    requires FreshFor(ids, c)
    ensures var d := DuplicateCourse(c, ids, newStartAt, newTitle, conditions);
      d.id != c.id && d.title == newTitle && d.registrationKey == None
  {
    var k := Key(CourseKind, c.id);
    assert k in OwnedKeys(c);
    assert c.id in OriginalIds(c);
  }

  /** The course's start becomes the requested start; its end moves by the same amount. */
  lemma CourseTimeShifted(c: Course, ids: IdentityMap, newStartAt: Time, newTitle: string,
                          conditions: seq<Condition>)
    ensures var d := DuplicateCourse(c, ids, newStartAt, newTitle, conditions);
      && d.startAt == newStartAt
      && d.startAt - c.startAt == TimeShift(c, newStartAt)
      && d.endAt == ShiftOpt(c.endAt, TimeShift(c, newStartAt))
  {
  }

  /** Every item keeps its place, moves to the new course, gets a new id and shifted times. */
  lemma LessonPlanItemsDuplicated(c: Course, ids: IdentityMap, newStartAt: Time, newTitle: string,
                                  conditions: seq<Condition>)
    requires FreshFor(ids, c)
    ensures var d := DuplicateCourse(c, ids, newStartAt, newTitle, conditions);
      var shift := TimeShift(c, newStartAt);
      && |d.items| == |c.items|
      && forall i :: 0 <= i < |c.items| ==>
        && d.items[i].id != c.items[i].id
        && d.items[i].course == d.id
        && d.items[i].title == c.items[i].title
        && d.items[i].description == c.items[i].description
        && d.items[i].startAt == c.items[i].startAt + shift
        && d.items[i].endAt == ShiftOpt(c.items[i].endAt, shift)
        && d.items[i].actable.EventActable? == c.items[i].actable.EventActable?
  {
    var d := DuplicateCourse(c, ids, newStartAt, newTitle, conditions);
    forall i | 0 <= i < |c.items|
      ensures d.items[i].id != c.items[i].id
    {
      var k := Key(ItemKind, c.items[i].id);
      assert k in ItemKeys(c.items[i]);
      assert k in OwnedKeys(c);
      assert c.items[i].id in OriginalIds(c);
    }
  }

  predicate IsEvent(it: LessonPlanItem) { it.actable.EventActable? }
  predicate IsAssessment(it: LessonPlanItem) { it.actable.AssessmentActable? }

  /** The items acting as events, in course order: `select { |i| i.actable_type == 'Event' }`. */
  function Events(items: seq<LessonPlanItem>): seq<LessonPlanItem> {
    Filter(items, IsEvent)
  }

  /** The items acting as assessments, in course order: `course.assessments`. */
  function Assessments(items: seq<LessonPlanItem>): seq<LessonPlanItem> {
    Filter(items, IsAssessment)
  }

  /**
   * The i-th event of the duplicate is the duplicate of the i-th event of the
   * original: same event type, title and description, start shifted.
   */
  lemma EventsDuplicated(c: Course, ids: IdentityMap, newStartAt: Time, newTitle: string,
                         conditions: seq<Condition>)
    ensures var d := DuplicateCourse(c, ids, newStartAt, newTitle, conditions);
      var shift := TimeShift(c, newStartAt);
      var (ne, oe) := (Events(d.items), Events(c.items));
      && |ne| == |oe|
      && forall i :: 0 <= i < |oe| ==>
        && ne[i].course == d.id
        && ne[i].actable.EventActable? && oe[i].actable.EventActable?
        && ne[i].actable.eventType == oe[i].actable.eventType
        && ne[i].startAt == oe[i].startAt + shift
        && ne[i].title == oe[i].title && ne[i].description == oe[i].description
  {
    var shift := TimeShift(c, newStartAt);
    var nc := NewId(ids, CourseKind, c.id);
    FilterMapCommute(c.items, it => DupItem(it, ids, shift, nc), IsEvent, IsEvent);
  }

  /**
   * The i-th assessment of the duplicate carries the i-th original's title,
   * description, experience points and published flag, with start and bonus end
   * shifted and an absent end date still absent.
   */
  lemma AssessmentsDuplicated(c: Course, ids: IdentityMap, newStartAt: Time, newTitle: string,
                              conditions: seq<Condition>)
    ensures var d := DuplicateCourse(c, ids, newStartAt, newTitle, conditions);
      var shift := TimeShift(c, newStartAt);
      var (na, oa) := (Assessments(d.items), Assessments(c.items));
      && |na| == |oa|
      && forall i :: 0 <= i < |oa| ==>
        && na[i].actable.AssessmentActable? && oa[i].actable.AssessmentActable?
        && var (n, o) := (na[i].actable.assessment, oa[i].actable.assessment);
        && na[i].course == d.id
        && na[i].title == oa[i].title && na[i].description == oa[i].description
        && n.baseExp == o.baseExp && n.timeBonusExp == o.timeBonusExp && n.published == o.published
        && na[i].startAt == oa[i].startAt + shift
        && n.bonusEndAt == ShiftOpt(o.bonusEndAt, shift)
        && (oa[i].endAt.None? ==> na[i].endAt.None?)
        && |n.questions| == |o.questions|
  {
    var shift := TimeShift(c, newStartAt);
    var nc := NewId(ids, CourseKind, c.id);
    FilterMapCommute(c.items, it => DupItem(it, ids, shift, nc), IsAssessment, IsAssessment);
  }

  function QuestionTitle(q: Question): string { q.title }
  function QuestionDescription(q: Question): string { q.description }
  function QuestionActableType(q: Question): string { q.actableType }
  function QuestionStaffOnlyComments(q: Question): bool { q.staffOnlyComments }
  function QuestionMaximumGrade(q: Question): int { q.maximumGrade }
  function QuestionWeight(q: Question): int { q.weight }

  /**
   * A duplicated assessment has as many questions, and the same multisets of
   * title, description, actable type, staff-only-comments flag, maximum grade
   * and weight (in fact the same lists, order kept).
   */
  lemma QuestionsDuplicated(a: Assessment, ids: IdentityMap, shift: int)
    ensures var n := DupAssessment(a, ids, shift);
      && |n.questions| == |a.questions|
      && multiset(MapSeq(n.questions, QuestionTitle)) == multiset(MapSeq(a.questions, QuestionTitle))
      && multiset(MapSeq(n.questions, QuestionDescription)) == multiset(MapSeq(a.questions, QuestionDescription))
      && multiset(MapSeq(n.questions, QuestionActableType)) == multiset(MapSeq(a.questions, QuestionActableType))
      && multiset(MapSeq(n.questions, QuestionStaffOnlyComments)) == multiset(MapSeq(a.questions, QuestionStaffOnlyComments))
      && multiset(MapSeq(n.questions, QuestionMaximumGrade)) == multiset(MapSeq(a.questions, QuestionMaximumGrade))
      && multiset(MapSeq(n.questions, QuestionWeight)) == multiset(MapSeq(a.questions, QuestionWeight))
  {
    var dup := q => DupQuestion(q, ids);
    MapKeepsAttribute(a.questions, dup, QuestionTitle);
    MapKeepsAttribute(a.questions, dup, QuestionDescription);
    MapKeepsAttribute(a.questions, dup, QuestionActableType);
    MapKeepsAttribute(a.questions, dup, QuestionStaffOnlyComments);
    MapKeepsAttribute(a.questions, dup, QuestionMaximumGrade);
    MapKeepsAttribute(a.questions, dup, QuestionWeight);
  }

  /**
   * A duplicated attachment reference is a new row (an id no original record
   * has) that points at the same attachment and keeps its audit metadata.
   */
  lemma ReferenceShared(c: Course, ids: IdentityMap, r: AttachmentReference)
    requires FreshFor(ids, c)
    requires Key(ReferenceKind, r.id) in OwnedKeys(c)
    ensures var n := DupReference(r, ids);
      n.id != r.id && n.id !in OriginalIds(c) && n.attachment == r.attachment && n.audit == r.audit
  {
    assert r.id in OriginalIds(c);
  }

  /** The attachment reference of a duplicated programming question is shared the same way. */
  lemma QuestionReferenceShared(c: Course, ids: IdentityMap, i: nat, j: nat)
    requires FreshFor(ids, c)
    requires i < |c.items| && c.items[i].actable.AssessmentActable?
    requires j < |c.items[i].actable.assessment.questions|
    requires c.items[i].actable.assessment.questions[j].attachment.Some?
    ensures var q := c.items[i].actable.assessment.questions[j];
      var n := DupQuestion(q, ids);
      && n.attachment.Some?
      && n.attachment.value.id != q.attachment.value.id
      && n.attachment.value.attachment == q.attachment.value.attachment
  {
    var a := c.items[i].actable.assessment;
    var q := a.questions[j];
    var k := Key(ReferenceKind, q.attachment.value.id);
    assert k in AssessmentKeys(a);
    assert k in ItemKeys(c.items[i]);
    assert k in OwnedKeys(c);
    ReferenceShared(c, ids, q.attachment.value);
  }

  /**
   * A duplicated folder keeps name, creator, updater and both audit timestamps,
   * moves to the new course, and has start and end shifted; its materials keep
   * name, description and audit metadata, and their attachment references keep
   * the attachment and the audit metadata.
   */
  lemma FoldersDuplicated(c: Course, ids: IdentityMap, newStartAt: Time, newTitle: string,
                          conditions: seq<Condition>)
    ensures var d := DuplicateCourse(c, ids, newStartAt, newTitle, conditions);
      var shift := TimeShift(c, newStartAt);
      && |d.folders| == |c.folders|
      && forall i :: 0 <= i < |c.folders| ==>
        && var (n, o) := (d.folders[i], c.folders[i]);
        && n.course == d.id && n.name == o.name && n.audit == o.audit
        && n.startAt == o.startAt + shift && n.endAt == ShiftOpt(o.endAt, shift)
        && |n.materials| == |o.materials|
        && forall j :: 0 <= j < |o.materials| ==>
          && n.materials[j].name == o.materials[j].name
          && n.materials[j].description == o.materials[j].description
          && n.materials[j].audit == o.materials[j].audit
          && n.materials[j].attachment.attachment == o.materials[j].attachment.attachment
          && n.materials[j].attachment.audit == o.materials[j].attachment.audit
  {
  }

  /** A sub-folder of the duplicate hangs under the duplicate of its original parent. */
  lemma FolderParentsRepointed(c: Course, ids: IdentityMap, newStartAt: Time, newTitle: string,
                               conditions: seq<Condition>, i: nat, j: nat)
    requires FreshFor(ids, c)
    requires i < |c.folders| && j < |c.folders|
    requires c.folders[i].parent == Some(c.folders[j].id)
    ensures var d := DuplicateCourse(c, ids, newStartAt, newTitle, conditions);
      d.folders[i].parent == Some(d.folders[j].id) && d.folders[j].id != c.folders[j].id
  {
    var k := Key(FolderKind, c.folders[j].id);
    assert k in FolderKeys(c.folders[j]);
    assert k in OwnedKeys(c);
    assert k.id in OriginalIds(c);
  }

  /** Levels keep their thresholds, in order. */
  lemma LevelsDuplicated(c: Course, ids: IdentityMap, newStartAt: Time, newTitle: string,
                         conditions: seq<Condition>)
    ensures var d := DuplicateCourse(c, ids, newStartAt, newTitle, conditions);
      && |d.levels| == |c.levels|
      && forall i :: 0 <= i < |c.levels| ==>
        d.levels[i].course == d.id && d.levels[i].experiencePointsThreshold == c.levels[i].experiencePointsThreshold
  {
  }

  /** Forums are new records of the new course with the same name, slug and description. */
  lemma ForumsDuplicated(c: Course, ids: IdentityMap, newStartAt: Time, newTitle: string,
                         conditions: seq<Condition>)
    requires FreshFor(ids, c)
    ensures var d := DuplicateCourse(c, ids, newStartAt, newTitle, conditions);
      && |d.forums| == |c.forums|
      && forall i :: 0 <= i < |c.forums| ==>
        && d.forums[i].id != c.forums[i].id && d.forums[i].course == d.id
        && d.forums[i].name == c.forums[i].name && d.forums[i].slug == c.forums[i].slug
        && d.forums[i].description == c.forums[i].description
  {
    var d := DuplicateCourse(c, ids, newStartAt, newTitle, conditions);
    forall i | 0 <= i < |c.forums|
      ensures d.forums[i].id != c.forums[i].id
    {
      assert Key(ForumKind, c.forums[i].id) in OwnedKeys(c);
      assert c.forums[i].id in OriginalIds(c);
    }
  }

  /** Milestones keep their order, title and description, with start shifted. */
  lemma MilestonesDuplicated(c: Course, ids: IdentityMap, newStartAt: Time, newTitle: string,
                             conditions: seq<Condition>)
    ensures var d := DuplicateCourse(c, ids, newStartAt, newTitle, conditions);
      && |d.milestones| == |c.milestones|
      && forall i :: 0 <= i < |c.milestones| ==>
        && d.milestones[i].course == d.id
        && d.milestones[i].title == c.milestones[i].title
        && d.milestones[i].description == c.milestones[i].description
        && d.milestones[i].startAt == c.milestones[i].startAt + TimeShift(c, newStartAt)
  {
  }

  /**
   * Every skill, in a branch or standalone, is a new record of the new course
   * with the same title and description, and is in a branch exactly when the
   * original is; every branch moves to the new course.
   */
  lemma SkillsAndBranchesDuplicated(c: Course, ids: IdentityMap, newStartAt: Time, newTitle: string,
                                    conditions: seq<Condition>)
    requires FreshFor(ids, c)
    ensures var d := DuplicateCourse(c, ids, newStartAt, newTitle, conditions);
      && |d.skills| == |c.skills| && |d.branches| == |c.branches|
      && (forall i :: 0 <= i < |c.skills| ==>
        && d.skills[i].course == d.id
        && d.skills[i].title == c.skills[i].title && d.skills[i].description == c.skills[i].description
        && d.skills[i].id != c.skills[i].id
        && (d.skills[i].branch.None? <==> c.skills[i].branch.None?))
      && (forall j :: 0 <= j < |c.branches| ==> d.branches[j].course == d.id)
  {
    var d := DuplicateCourse(c, ids, newStartAt, newTitle, conditions);
    forall i | 0 <= i < |c.skills|
      ensures d.skills[i].id != c.skills[i].id
    {
      assert Key(SkillKind, c.skills[i].id) in OwnedKeys(c);
      assert c.skills[i].id in OriginalIds(c);
    }
  }

  /** A skill in a branch is in the duplicate of that branch. */
  lemma SkillBranchRepointed(c: Course, ids: IdentityMap, newStartAt: Time, newTitle: string,
                         conditions: seq<Condition>, i: nat, j: nat)
    requires FreshFor(ids, c)
    requires i < |c.skills| && j < |c.branches| && c.skills[i].branch == Some(c.branches[j].id)
    ensures var d := DuplicateCourse(c, ids, newStartAt, newTitle, conditions);
      && d.skills[i].course == d.id && d.branches[j].course == d.id
      && d.skills[i].title == c.skills[i].title && d.skills[i].description == c.skills[i].description
      && d.skills[i].branch == Some(d.branches[j].id)
      && d.skills[i].id != c.skills[i].id
  {
    assert Key(SkillKind, c.skills[i].id) in OwnedKeys(c);
    assert c.skills[i].id in OriginalIds(c);
  }

  /** Achievements move to the new course with the same title, description, weight and published flag. */
  lemma AchievementsDuplicated(c: Course, ids: IdentityMap, newStartAt: Time, newTitle: string,
                               conditions: seq<Condition>)
    ensures var d := DuplicateCourse(c, ids, newStartAt, newTitle, conditions);
      && |d.achievements| == |c.achievements|
      && forall i :: 0 <= i < |c.achievements| ==>
        && d.achievements[i].course == d.id
        && d.achievements[i].title == c.achievements[i].title
        && d.achievements[i].description == c.achievements[i].description
        && d.achievements[i].weight == c.achievements[i].weight
        && d.achievements[i].published == c.achievements[i].published
  {
  }

  /** The conditions gating achievement `a`: `achievement.conditions`. */
  function ConditionsOf(xs: seq<Condition>, a: Id): seq<Condition> {
    Filter(xs, (x: Condition) => x.conditionalType == GatedAchievement && x.conditional == a)
  }

  function ConditionKinds(xs: seq<Condition>): seq<ConditionType> {
    MapSeq(xs, (x: Condition) => x.kind)
  }

  /**
   * The conditions of a duplicated achievement are the duplicates of the
   * original achievement's conditions: each is conditional on the new
   * achievement, and the condition types match (same list, so same multiset).
   */
  lemma {:induction false} ConditionsRepointed(xs: seq<Condition>, ids: IdentityMap, course: Id,
                                                ys: seq<Condition>, a: Id)
    requires Injective(ids) && Key(AchievementKind, a) in ids
    requires DupConditions(xs, ids, course) == Some(ys)
    ensures var na := ids[Key(AchievementKind, a)];
      && (forall y :: y in ConditionsOf(ys, na) ==> y.conditionalType == GatedAchievement && y.conditional == na)
      && ConditionKinds(ConditionsOf(ys, na)) == ConditionKinds(ConditionsOf(xs, a))
      && multiset(ConditionKinds(ConditionsOf(ys, na))) == multiset(ConditionKinds(ConditionsOf(xs, a)))
  {
    var na := ids[Key(AchievementKind, a)];
    if xs != [] {
      var n := |xs| - 1;
      var init := ys[..n];
      assert DupConditions(xs[..n], ids, course) == Some(init);
      ConditionsRepointed(xs[..n], ids, course, init, a);
      assert ys == init + [ys[n]];
      var x, y := xs[n], ys[n];
      assert DupCondition(x, ids, course) == Some(y);
      assert (y.conditionalType == GatedAchievement && y.conditional == na) ==
             (x.conditionalType == GatedAchievement && x.conditional == a);
    }
  }

  /**
   * Condition endpoints are re-pointed: when achievement B is gated on
   * achievement A, B's duplicate is gated on A's duplicate, never on A.
   */
  lemma ConditionTargetsRepointed(c: Course, ids: IdentityMap, ys: seq<Condition>, i: nat)
    requires FreshFor(ids, c) && ids.Keys == OwnedKeys(c)
    requires DupConditions(c.conditions, ids, NewId(ids, CourseKind, c.id)) == Some(ys)
    requires i < |c.conditions|
    ensures var (x, y) := (c.conditions[i], ys[i]);
      && y.kind == x.kind
      && y.conditionalType == x.conditionalType
      && y.conditional == ids[Key(ConditionalKind(x.conditionalType), x.conditional)] && y.conditional != x.conditional
      && y.target == ids[Key(TargetKind(x.kind), x.target)] && y.target != x.target
  {
    var x := c.conditions[i];
    assert DupCondition(x, ids, NewId(ids, CourseKind, c.id)) == Some(ys[i]);
    var kc, kt := Key(ConditionalKind(x.conditionalType), x.conditional), Key(TargetKind(x.kind), x.target);
    assert kc in OwnedKeys(c) && kt in OwnedKeys(c);
    assert kc.id in OriginalIds(c);
    assert kt.id in OriginalIds(c);
  }

  /** A condition's endpoints are records of the course. */
  ghost predicate ConditionsResolvable(c: Course) {
    forall x :: x in c.conditions ==>
      && Key(ConditionalKind(x.conditionalType), x.conditional) in OwnedKeys(c)
      && Key(TargetKind(x.kind), x.target) in OwnedKeys(c)
  }

  /** Duplication fails exactly when some condition names a record outside the course. */
  lemma DuplicationSucceedsIffResolvable(c: Course, ids: IdentityMap, newStartAt: Time, newTitle: string)
    requires ids.Keys == OwnedKeys(c)
    ensures DuplicateUnder(c, ids, newStartAt, newTitle).Some? <==> ConditionsResolvable(c)
  {
    var nc := NewId(ids, CourseKind, c.id);
    if ConditionsResolvable(c) {
      forall i | 0 <= i < |c.conditions|
        ensures DupCondition(c.conditions[i], ids, nc).Some?
      {
        assert c.conditions[i] in c.conditions;
      }
    } else {
      var x :| x in c.conditions && !(Key(ConditionalKind(x.conditionalType), x.conditional) in OwnedKeys(c)
                                      && Key(TargetKind(x.kind), x.target) in OwnedKeys(c));
      var i :| 0 <= i < |c.conditions| && c.conditions[i] == x;
      assert DupCondition(c.conditions[i], ids, nc).None?;
    }
  }

  /** A course whose only assessment (item 6, assessment 7) is gated on its only level (8). */
  function AssessmentGatedOnLevel(): Course {
    var assessment := Assessment(7, 0, 0, true, None, [], []);
    Course(1, "course", 0, None, None,
           [LessonPlanItem(6, 1, "assessment", "", 0, None, AssessmentActable(assessment))],
           [], [Level(8, 1, 0)], [], [], [], [],
           [Condition(9, 1, LevelCondition, GatedAssessment, 7, 8)], [])
  }

  /** Conditions on assessments resolve like those on achievements, so such a course duplicates. */
  lemma AssessmentGatedOnLevelDuplicates(ids: IdentityMap, newStartAt: Time, newTitle: string)
    requires ids.Keys == OwnedKeys(AssessmentGatedOnLevel())
    ensures DuplicateUnder(AssessmentGatedOnLevel(), ids, newStartAt, newTitle).Some?
  {
    var c := AssessmentGatedOnLevel();
    var item := c.items[0];
    assert Key(AssessmentKind, 7) in ItemKeys(item);
    assert Key(AssessmentKind, 7) in OwnedKeys(c);
    assert Key(LevelKind, 8) in OwnedKeys(c);
    DuplicationSucceedsIffResolvable(c, ids, newStartAt, newTitle);
  }

  // ---------------------------------------------------------------------------
  // The service
  // ---------------------------------------------------------------------------

  /** Ids handed out from `bound` upward are none of the ids below it. */
  lemma FreshIdsAreNew(ids: IdentityMap, originals: set<Id>, bound: Id)
    requires forall i :: i in originals ==> i < bound
    requires forall k :: k in ids ==> bound <= ids[k]
    ensures forall k :: k in ids ==> ids[k] !in originals
  {
  }

  datatype DuplicationError = UnresolvedDependency(condition: Id)

  /**
   * `Course::DuplicationService`: built with the source course and the options
   * `new_course_start_date` and `new_course_title`; `duplicate` fills the
   * `@new_course` field. `nextId` is the id sequence, `identityMap` the
   * run's original-to-new map.
   */
  class DuplicationService {
    const source: Course
    const newCourseStartAt: Time
    const newCourseTitle: string
    var nextId: Id
    var identityMap: IdentityMap
    var newCourse: Option<Course>

    /** A fresh service: empty identity map, no new course yet, ids above every original one. */
    ghost predicate Ready()
      reads this
    {
      && identityMap == map[]
      && newCourse == None
      && forall i :: i in OriginalIds(source) ==> i < nextId
    }

    constructor (source: Course, newCourseStartAt: Time, newCourseTitle: string, firstFreeId: Id)
      requires forall i :: i in OriginalIds(source) ==> i < firstFreeId
      ensures this.source == source && this.newCourseStartAt == newCourseStartAt
      ensures this.newCourseTitle == newCourseTitle && nextId == firstFreeId
      ensures Ready()
    {
      this.source := source;
      this.newCourseStartAt := newCourseStartAt;
      this.newCourseTitle := newCourseTitle;
      nextId := firstFreeId;
      identityMap := map[];
      newCourse := None;
    }

    /** Phase one: a fresh id for every record the course owns, taken from the id counter. */
    method AllocateIds()
      requires Ready()
      modifies this`identityMap, this`nextId
      ensures identityMap.Keys == OwnedKeys(source)
      ensures forall k :: k in identityMap ==> old(nextId) <= identityMap[k] < nextId
      ensures FreshFor(identityMap, source)
    {
      ghost var owned := OwnedKeys(source);
      var pending := OwnedKeys(source);
      while pending != {}
        invariant pending <= owned
        invariant identityMap.Keys == owned - pending
        invariant old(nextId) <= nextId
        invariant forall k :: k in identityMap ==> old(nextId) <= identityMap[k] < nextId
        invariant Injective(identityMap)
        decreases pending
      {
        var k :| k in pending;
        identityMap := identityMap[k := nextId];
        nextId := nextId + 1;
        pending := pending - {k};
      }
      FreshIdsAreNew(identityMap, OriginalIds(source), old(nextId));
    }

    /**
     * Phase two, once every achievement, assessment and level has its new id:
     * each condition re-pointed through the identity map, in order, failing on
     * the first condition with an endpoint the map does not know.
     */
    method ResolveConditions(course: Id) returns (r: Result<seq<Condition>, DuplicationError>)
      ensures r.Success? <==> DupConditions(source.conditions, identityMap, course).Some?
      ensures r.Success? ==> DupConditions(source.conditions, identityMap, course) == Some(r.value)
      ensures r.Failure? ==>
        exists x :: x in source.conditions && x.id == r.error.condition && DupCondition(x, identityMap, course).None?
    {
      var conditions: seq<Condition> := [];
      var i := 0;
      while i < |source.conditions|
        invariant 0 <= i <= |source.conditions|
        invariant DupConditions(source.conditions[..i], identityMap, course) == Some(conditions)
      {
        var x := source.conditions[i];
        var dup := DupCondition(x, identityMap, course);
        if dup.None? {
          return Failure(UnresolvedDependency(x.id));
        }
        assert source.conditions[..i + 1][..i] == source.conditions[..i];
        conditions := conditions + [dup.value];
        i := i + 1;
      }
      assert source.conditions[..i] == source.conditions;
      r := Success(conditions);
    }

    /**
     * `duplicate`: allocates the new ids, re-points the conditions, and sets
     * the new course; when a condition cannot be resolved the run fails as a
     * whole and no new course is set.
     */
    method Duplicate() returns (outcome: Result<Id, DuplicationError>)
      requires Ready()
      modifies this
      ensures identityMap.Keys == OwnedKeys(source)
      ensures forall k :: k in identityMap ==> old(nextId) <= identityMap[k] < nextId
      ensures FreshFor(identityMap, source)
      ensures outcome.Success? <==> ConditionsResolvable(source)
      ensures newCourse == DuplicateUnder(source, identityMap, newCourseStartAt, newCourseTitle)
      ensures outcome.Success? ==> newCourse.Some? && outcome.value == newCourse.value.id
    {
      AllocateIds();
      DuplicationSucceedsIffResolvable(source, identityMap, newCourseStartAt, newCourseTitle);
      var nc := NewId(identityMap, CourseKind, source.id);
      var conditions := ResolveConditions(nc);
      match conditions
      case Failure(e) =>
        outcome := Failure(e);
      case Success(cs) =>
        var course := DuplicateCourse(source, identityMap, newCourseStartAt, newCourseTitle, cs);
        newCourse := Some(course);
        outcome := Success(course.id);
    }
  }
}

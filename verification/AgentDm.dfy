/** Owner-to-agent direct messages: which project session is active, and which project a
    message without an explicit choice belongs to (core/agent_dm_reply.py,
    core/agent_dm_disambiguation.py). */
module AgentDm {
  import opened Wrappers
  import opened Strings
  import opened Ordering

  datatype Status = Active | Closed

  /** Sessions are stored under owner, project and agent role. */
  datatype SessionKey = SessionKey(owner: int, project: string, role: string)

  datatype Session = Session(status: Status, createdAt: real, lastInteractionAt: real)

  type Store = map<SessionKey, Session>

  datatype DmError = InvalidTimestamp | LastInteractionBeforeCreation | EmptyOwnerText

  // ----- Activation -----------------------------------------------------------------------------

  /** Another project of the same owner and agent. */
  predicate Rival(k: SessionKey, key: SessionKey) {
    k.owner == key.owner && k.role == key.role && k.project != key.project
  }

  function CloseRivals(s: Store, key: SessionKey): Store {
    map k | k in s :: if Rival(k, key) then s[k].(status := Closed) else s[k]
  }

  /** The rivals are closed first; a clock that shows a time before the session's creation is
      noticed only afterwards. */
  function Activate(s: Store, key: SessionKey, now: real): (Store, Result<Session, DmError>) {
    if now <= 0.0 then (s, Err(InvalidTimestamp))
    else
      var closed := CloseRivals(s, key);
      var createdAt := if key in closed then closed[key].createdAt else now;
      if now < createdAt then (closed, Err(LastInteractionBeforeCreation))
      else
        var session := Session(Active, createdAt, now);
        (closed[key := session], Ok(session))
  }

  datatype Activation = Activation(key: SessionKey, now: real)

  function StoreAfter(log: seq<Activation>): Store {
    if log == [] then map[]
    else Activate(StoreAfter(log[..|log| - 1]), log[|log| - 1].key, log[|log| - 1].now).0
  }

  class AgentDmSingleReplyService {
    var sessions: map<SessionKey, Session>

    constructor ()
      ensures sessions == map[]
    {
      sessions := map[];
    }

    /** The store may list the owner's sessions in any order. */
    method CloseOtherAgentSessions(key: SessionKey)
      modifies this
      ensures sessions == CloseRivals(old(sessions), key)
    {
      var listed := sessions.Keys;
      while listed != {}
        invariant listed <= sessions.Keys == old(sessions).Keys
        invariant forall k | k in sessions ::
                    sessions[k] == if k in listed then old(sessions)[k] else CloseRivals(old(sessions), key)[k]
      {
        var k :| k in listed;
        if Rival(k, key) && sessions[k].status != Closed {
          sessions := sessions[k := sessions[k].(status := Closed)];
        }
        listed := listed - {k};
      }
    }

    method ActivateSession(key: SessionKey, now: real) returns (r: Result<Session, DmError>)
      modifies this
      ensures (sessions, r) == Activate(old(sessions), key, now)
    {
      if now <= 0.0 {
        return Err(InvalidTimestamp);
      }
      CloseOtherAgentSessions(key);
      var createdAt := now;
      if key in sessions {
        createdAt := sessions[key].createdAt;
      }
      if now < createdAt {
        return Err(LastInteractionBeforeCreation);
      }
      var session := Session(Active, createdAt, now);
      sessions := sessions[key := session];
      return Ok(session);
    }

    /** A reply: the session is activated only when the model has answered with some text. */
    method ReplyOnce(key: SessionKey, answer: Option<string>, now: real) returns (r: Option<Result<Session, DmError>>)
      modifies this
      ensures r.None? <==> answer.None? || IsBlank(answer.value)
      ensures r.None? ==> sessions == old(sessions)
      ensures r.Some? ==> (sessions, r.value) == Activate(old(sessions), key, now)
    {
      if answer.None? || IsBlank(answer.value) {
        return None;
      }
      var session := ActivateSession(key, now);
      return Some(session);
    }
  }

  // ----- One active session ---------------------------------------------------------------------

  predicate IsActive(s: Store, k: SessionKey) {
    k in s && s[k].status == Active
  }

  ghost predicate OneActive(s: Store) {
    forall k, l | IsActive(s, k) && IsActive(s, l) :: !Rival(k, l)
  }

  /** Who is active for the owner and role after an activation at a valid time: the project
      alone, if the activation succeeded or its session was active already; nobody otherwise.
      Other owners and roles keep exactly what they had. */
  lemma WhoIsActive(s: Store, key: SessionKey, now: real, k: SessionKey)
    requires now > 0.0
    ensures var (s', r) := Activate(s, key, now);
            && (r.Err? <==> key in s && now < s[key].createdAt)
            && (k.owner == key.owner && k.role == key.role ==>
                  (IsActive(s', k) <==> k == key && (r.Ok? || IsActive(s, key))))
            && (!(k.owner == key.owner && k.role == key.role) ==>
                  (k in s' <==> k in s) && (k in s ==> s'[k] == s[k]))
  {
  }

  /** Over any run, whatever the clock does, an owner has at most one active session with an
      agent. */
  lemma {:induction false} OneActiveTheorem(log: seq<Activation>)
    ensures OneActive(StoreAfter(log))
  {
    if log != [] {
      var s, last := StoreAfter(log[..|log| - 1]), log[|log| - 1];
      OneActiveTheorem(log[..|log| - 1]);
      if last.now > 0.0 {
        forall k, l | IsActive(StoreAfter(log), k) && IsActive(StoreAfter(log), l) ensures !Rival(k, l) {
          WhoIsActive(s, last.key, last.now, k);
          WhoIsActive(s, last.key, last.now, l);
        }
      }
    }
  }

  /** It may be none: when the clock goes back before a session's creation, activating that
      session fails after its rival has been closed. */
  lemma ClockGoingBackLeavesNone()
    ensures var p, q := SessionKey(7, "p", "pm"), SessionKey(7, "q", "pm");
            var s := StoreAfter([Activation(p, 10.0), Activation(q, 20.0)]);
            IsActive(s, q) && forall k :: !IsActive(Activate(s, p, 5.0).0, k)
  {
    var p, q := SessionKey(7, "p", "pm"), SessionKey(7, "q", "pm");
    var log := [Activation(p, 10.0), Activation(q, 20.0)];
    assert log[..1] == [Activation(p, 10.0)] && log[..1][..0] == [];
    assert StoreAfter(log[..1]) == map[p := Session(Active, 10.0, 10.0)];
    assert StoreAfter(log) == map[p := Session(Closed, 10.0, 10.0), q := Session(Active, 20.0, 20.0)];
  }

  // ----- The store is a function of the log -----------------------------------------------------

  /** Valid times that do not fall. */
  ghost predicate ClockRuns(log: seq<Activation>) {
    && (forall i | 0 <= i < |log| :: log[i].now > 0.0)
    && (forall i, j | 0 <= i < j < |log| :: log[i].now <= log[j].now)
  }

  function LastProject(log: seq<Activation>, owner: int, role: string): Option<string> {
    if log == [] then None
    else
      var last := log[|log| - 1].key;
      if last.owner == owner && last.role == role then Some(last.project)
      else LastProject(log[..|log| - 1], owner, role)
  }

  function FirstTime(log: seq<Activation>, k: SessionKey): Option<real> {
    if log == [] then None
    else if log[0].key == k then Some(log[0].now)
    else FirstTime(log[1..], k)
  }

  function LastTime(log: seq<Activation>, k: SessionKey): Option<real> {
    if log == [] then None
    else if log[|log| - 1].key == k then Some(log[|log| - 1].now)
    else LastTime(log[..|log| - 1], k)
  }

  lemma {:induction false} FirstTimeAppend(log: seq<Activation>, a: Activation, k: SessionKey)
    ensures FirstTime(log + [a], k) ==
            if FirstTime(log, k).Some? then FirstTime(log, k) else if a.key == k then Some(a.now) else None
  {
    if log != [] {
      assert (log + [a])[1..] == log[1..] + [a];
      FirstTimeAppend(log[1..], a, k);
    }
  }

  lemma {:induction false} TimesFromLog(log: seq<Activation>, k: SessionKey)
    ensures FirstTime(log, k).Some? ==>
              exists i :: 0 <= i < |log| && log[i].key == k && log[i].now == FirstTime(log, k).value
  {
    if log != [] && log[0].key != k {
      TimesFromLog(log[1..], k);
      if FirstTime(log, k).Some? {
        var i :| 0 <= i < |log| - 1 && log[1..][i].key == k && log[1..][i].now == FirstTime(log, k).value;
        assert log[i + 1] == log[1..][i];
      }
    }
  }

  /** What the log says about one session. */
  ghost predicate Remembers(s: Store, log: seq<Activation>, k: SessionKey) {
    && (k in s <==> FirstTime(log, k).Some?)
    && (k in s ==> LastTime(log, k).Some?
                   && s[k] == Session(if LastProject(log, k.owner, k.role) == Some(k.project) then Active else Closed,
                                      FirstTime(log, k).value, LastTime(log, k).value))
  }

  /** With a clock that does not go back: a session exists for exactly the activated keys, with
      the time of the first activation as its creation and the last as its last interaction, and
      it is active exactly if it is its owner's and agent's last. */
  lemma {:induction false} StoreTheorem(log: seq<Activation>, k: SessionKey)
    requires ClockRuns(log)
    ensures Remembers(StoreAfter(log), log, k)
  {
    if log != [] {
      var before, last := log[..|log| - 1], log[|log| - 1];
      assert log == before + [last];
      StoreTheorem(before, k);
      StoreTheorem(before, last.key);
      FirstTimeAppend(before, last, k);
      FirstTimeAppend(before, last, last.key);
      TimesFromLog(before, last.key);
    }
  }

  // ----- Candidate projects -----------------------------------------------------------------------

  /** `allowsDm`: a policy is present and allows agent DMs. */
  datatype Project = Project(id: string, slug: string, owner: int, active: bool, allowsDm: bool)

  datatype Candidate = Candidate(project: Project, hasActiveSession: bool, lastInteractionAt: Option<real>)

  predicate IsCandidate(p: Project, owner: int) {
    p.owner == owner && p.active && p.allowsDm
  }

  function CandidateOf(s: Store, p: Project, role: string): Candidate {
    var k := SessionKey(p.owner, p.id, role);
    Candidate(p, IsActive(s, k), if IsActive(s, k) then Some(s[k].lastInteractionAt) else None)
  }

  /** The eligible projects, in the registry's order. */
  function Collected(s: Store, projects: seq<Project>, owner: int, role: string): seq<Candidate> {
    if projects == [] then []
    else
      var earlier, p := Collected(s, projects[..|projects| - 1], owner, role), projects[|projects| - 1];
      if IsCandidate(p, owner) then earlier + [CandidateOf(s, p, role)] else earlier
  }

  /** A sorted list with one candidate more, after those with the same slug. */
  function InsertBySlug(cs: seq<Candidate>, c: Candidate): seq<Candidate> {
    if cs == [] then [c]
    else
      var last := cs[|cs| - 1];
      if Less(c.project.slug, last.project.slug) then InsertBySlug(cs[..|cs| - 1], c) + [last] else cs + [c]
  }

  /** Python's stable sort with the slug as its key. */
  function SortBySlug(cs: seq<Candidate>): seq<Candidate> {
    if cs == [] then [] else InsertBySlug(SortBySlug(cs[..|cs| - 1]), cs[|cs| - 1])
  }

  function Candidates(s: Store, projects: seq<Project>, owner: int, role: string): seq<Candidate> {
    SortBySlug(Collected(s, projects, owner, role))
  }

  method CollectCandidateProjects(s: Store, projects: seq<Project>, owner: int, role: string)
    returns (candidates: seq<Candidate>)
    ensures candidates == Candidates(s, projects, owner, role)
  {
    candidates := [];
    for i := 0 to |projects|
      invariant candidates == Collected(s, projects[..i], owner, role)
    {
      assert projects[..i + 1][..i] == projects[..i];
      var p := projects[i];
      if p.owner != owner || !p.active || !p.allowsDm {
        continue;
      }
      var k := SessionKey(owner, p.id, role);
      var active := k in s && s[k].status == Active;
      candidates := candidates + [Candidate(p, active, if active then Some(s[k].lastInteractionAt) else None)];
    }
    assert projects[..|projects|] == projects;
    return SortBySlug(candidates);
  }

  ghost predicate BySlug(cs: seq<Candidate>) {
    forall i, j | 0 <= i < j < |cs| :: !Less(cs[j].project.slug, cs[i].project.slug)
  }

  /** The candidates with one slug, in order. */
  function OfSlug(cs: seq<Candidate>, slug: string): seq<Candidate> {
    if cs == [] then []
    else
      var earlier, last := OfSlug(cs[..|cs| - 1], slug), cs[|cs| - 1];
      if last.project.slug == slug then earlier + [last] else earlier
  }

  lemma {:induction false} OfSlugAppend(cs: seq<Candidate>, c: Candidate, slug: string)
    ensures OfSlug(cs + [c], slug) == if c.project.slug == slug then OfSlug(cs, slug) + [c] else OfSlug(cs, slug)
  {
    assert (cs + [c])[..|cs|] == cs;
  }

  lemma {:induction false} LastStaysLast(r: seq<Candidate>, init: seq<Candidate>, c: Candidate, last: Candidate)
    requires BySlug(r) && multiset(r) == multiset(init) + multiset{c}
    requires BySlug(init + [last]) && !Less(last.project.slug, c.project.slug)
    ensures BySlug(r + [last])
  {
    hide Less;
    forall i | 0 <= i < |r| ensures !Less(last.project.slug, r[i].project.slug) {
      assert r[i] in multiset(r);
      if r[i] != c {
        assert r[i] in multiset(init);
        var j :| 0 <= j < |init| && init[j] == r[i];
        assert (init + [last])[j] == r[i] && (init + [last])[|init|] == last;
      }
    }
  }

  lemma {:induction false} InsertKeepsOrder(cs: seq<Candidate>, c: Candidate)
    requires BySlug(cs)
    ensures BySlug(InsertBySlug(cs, c)) && multiset(InsertBySlug(cs, c)) == multiset(cs) + multiset{c}
  {
    if cs != [] {
      var init, last := cs[..|cs| - 1], cs[|cs| - 1];
      assert cs == init + [last];
      if Less(c.project.slug, last.project.slug) {
        InsertKeepsOrder(init, c);
        LessTotal(c.project.slug, last.project.slug);
        hide Less;
        LastStaysLast(InsertBySlug(init, c), init, c, last);
      } else {
        forall i | 0 <= i < |cs| ensures !Less(c.project.slug, cs[i].project.slug) {
          if Less(c.project.slug, cs[i].project.slug) {
            NotLessTransitive(c.project.slug, cs[i].project.slug, last.project.slug);
          }
        }
      }
    }
  }

  /** Below something that is not above a third is below the third. */
  lemma NotLessTransitive(a: string, b: string, c: string)
    requires Less(a, b) && !Less(c, b)
    ensures Less(a, c)
  {
    LessTotal(b, c);
    if b != c {
      LessTransitive(a, b, c);
    }
  }

  lemma {:induction false} InsertIsStable(cs: seq<Candidate>, c: Candidate, slug: string)
    requires BySlug(cs)
    ensures OfSlug(InsertBySlug(cs, c), slug) == OfSlug(cs + [c], slug)
  {
    OfSlugAppend(cs, c, slug);
    if cs != [] {
      var init, last := cs[..|cs| - 1], cs[|cs| - 1];
      assert cs == init + [last];
      if Less(c.project.slug, last.project.slug) {
        LessTotal(c.project.slug, last.project.slug);
        InsertIsStable(init, c, slug);
        OfSlugAppend(init, c, slug);
        OfSlugAppend(init, last, slug);
        OfSlugAppend(InsertBySlug(init, c), last, slug);
      }
    }
  }

  /** The candidates come sorted by slug; nobody is lost or added, and those with the same slug
      stay in the registry's order. */
  lemma {:induction false} SortTheorem(cs: seq<Candidate>, slug: string)
    ensures var r := SortBySlug(cs);
            BySlug(r) && multiset(r) == multiset(cs) && OfSlug(r, slug) == OfSlug(cs, slug)
  {
    if cs != [] {
      var init, last := cs[..|cs| - 1], cs[|cs| - 1];
      assert cs == init + [last];
      SortTheorem(init, slug);
      InsertKeepsOrder(SortBySlug(init), last);
      InsertIsStable(SortBySlug(init), last, slug);
      OfSlugAppend(SortBySlug(init), last, slug);
      OfSlugAppend(init, last, slug);
    }
  }

  // ----- Resolution -------------------------------------------------------------------------------

  const COORDINATOR_ROLE := "coordinator_agent"

  datatype DirectMessage = DirectMessage(
    chatId: int,
    userId: int,
    botRole: Option<string>,
    text: Option<string>,
    fromSingleProject: bool,
    projectId: Option<string>
  )

  datatype Source =
    | OwnerDmSingleProject | ExplicitProjectSlug | ActiveAgentSession | SingleCandidate
    | AmbiguousMultipleProjects | ExplicitSlugNotFound | NoAgentDmProjects

  datatype Resolution =
    | Resolved(project: Project, text: string, source: Source, candidates: seq<Candidate>)
    | Ambiguous(text: string, source: Source, candidates: seq<Candidate>)
    | NotApplicable(text: string)

  /** Text that names a project outright, as the selection pattern reads it: the slug and the
      remaining message. */
  type SelectionParser = string -> Option<(string, string)>

  predicate IsSecondaryCandidate(m: DirectMessage) {
    && m.chatId > 0 && m.userId > 0 && m.chatId == m.userId
    && m.botRole.Some? && m.botRole.value != COORDINATOR_ROLE
    && m.text.Some? && !IsBlank(m.text.value)
  }

  function WithId(projects: seq<Project>, id: string): Option<Project> {
    if projects == [] then None
    else if projects[0].id == id then Some(projects[0])
    else WithId(projects[1..], id)
  }

  /** The last candidate with a slug wins, as in a dictionary built from the list. */
  function WithSlug(cs: seq<Candidate>, slug: string): Option<Candidate> {
    if cs == [] then None
    else if cs[|cs| - 1].project.slug == slug then Some(cs[|cs| - 1])
    else WithSlug(cs[..|cs| - 1], slug)
  }

  function ActiveOnes(cs: seq<Candidate>): seq<Candidate> {
    if cs == [] then []
    else
      var earlier := ActiveOnes(cs[..|cs| - 1]);
      if cs[|cs| - 1].hasActiveSession then earlier + [cs[|cs| - 1]] else earlier
  }

  /** Whether the message carries a project that the single-project routing found for it. */
  predicate RoutedAlready(m: DirectMessage, projects: seq<Project>) {
    m.fromSingleProject && m.projectId.Some? && WithId(projects, m.projectId.value).Some?
  }

  function Resolve(s: Store, projects: seq<Project>, parse: SelectionParser,
                   m: DirectMessage): Result<Resolution, DmError> {
    if !IsSecondaryCandidate(m) then
      var text := if m.text.Some? && m.text.value != "" then m.text.value else "not applicable";
      if IsBlank(text) then Err(EmptyOwnerText) else Ok(NotApplicable(Strip(text)))
    else
      var text := Strip(m.text.value);
      if RoutedAlready(m, projects) then
        Ok(Resolved(WithId(projects, m.projectId.value).value, text, OwnerDmSingleProject, []))
      else
        var cs := Candidates(s, projects, m.userId, m.botRole.value);
        if cs == [] then Ok(NotApplicable(text))
        else if parse(text).Some? then
          var (slug, rest) := parse(text).value;
          var c := WithSlug(cs, slug);
          if c.Some? then Ok(Resolved(c.value.project, rest, ExplicitProjectSlug, cs))
          else Ok(Ambiguous(rest, ExplicitSlugNotFound, cs))
        else if |ActiveOnes(cs)| == 1 then Ok(Resolved(ActiveOnes(cs)[0].project, text, ActiveAgentSession, cs))
        else if |cs| == 1 then Ok(Resolved(cs[0].project, text, SingleCandidate, cs))
        else Ok(Ambiguous(text, AmbiguousMultipleProjects, cs))
  }

  ghost predicate DistinctIds(projects: seq<Project>) {
    forall i, j | 0 <= i < j < |projects| :: projects[i].id != projects[j].id
  }

  /** The candidates are the owner's eligible projects, and no others. */
  lemma CandidatesAre(s: Store, projects: seq<Project>, owner: int, role: string, c: Candidate)
    ensures c in Candidates(s, projects, owner, role) <==>
            c.project in projects && IsCandidate(c.project, owner) && c == CandidateOf(s, c.project, role)
  {
    var cs := Collected(s, projects, owner, role);
    CollectedAre(s, projects, owner, role, c);
    SortTheorem(cs, "");
    assert c in cs <==> c in multiset(cs);
    assert c in SortBySlug(cs) <==> c in multiset(SortBySlug(cs));
  }

  lemma {:induction false} CollectedAre(s: Store, projects: seq<Project>, owner: int, role: string, c: Candidate)
    ensures c in Collected(s, projects, owner, role) <==>
            c.project in projects && IsCandidate(c.project, owner) && c == CandidateOf(s, c.project, role)
  {
    if projects != [] {
      CollectedAre(s, projects[..|projects| - 1], owner, role, c);
      assert projects == projects[..|projects| - 1] + [projects[|projects| - 1]];
    }
  }

  lemma {:induction false} ActiveOnesAre(cs: seq<Candidate>, c: Candidate)
    ensures c in ActiveOnes(cs) <==> c in cs && c.hasActiveSession
  {
    if cs != [] {
      ActiveOnesAre(cs[..|cs| - 1], c);
      assert cs == cs[..|cs| - 1] + [cs[|cs| - 1]];
    }
  }

  lemma {:induction false} ActiveOnesApart(cs: seq<Candidate>, i: nat, j: nat)
    requires i < j < |ActiveOnes(cs)|
    ensures exists k, l :: 0 <= k < l < |cs| && cs[k] == ActiveOnes(cs)[i] && cs[l] == ActiveOnes(cs)[j]
  {
    var init := cs[..|cs| - 1];
    if j < |ActiveOnes(init)| {
      ActiveOnesApart(init, i, j);
      var k, l :| 0 <= k < l < |init| && init[k] == ActiveOnes(init)[i] && init[l] == ActiveOnes(init)[j];
      assert cs[k] == init[k] && cs[l] == init[l];
    } else {
      ActiveOnesAre(init, ActiveOnes(init)[i]);
      var k :| 0 <= k < |init| && init[k] == ActiveOnes(init)[i];
      assert cs[k] == init[k] && cs[|cs| - 1] == ActiveOnes(cs)[j];
    }
  }

  /** No project is a candidate twice. */
  lemma {:induction false} CollectedOnce(s: Store, projects: seq<Project>, owner: int, role: string, c: Candidate)
    requires DistinctIds(projects)
    ensures multiset(Collected(s, projects, owner, role))[c] <= 1
  {
    if projects != [] {
      var before, p := projects[..|projects| - 1], projects[|projects| - 1];
      CollectedOnce(s, before, owner, role, c);
      CollectedAre(s, before, owner, role, c);
      if c.project == p {
        assert forall i | 0 <= i < |before| :: projects[i].id != p.id;
        assert p !in before;
      }
    }
  }

  lemma {:induction false} TwiceInMultiset(cs: seq<Candidate>, k: nat, l: nat)
    requires k < l < |cs| && cs[k] == cs[l]
    ensures multiset(cs)[cs[k]] >= 2
  {
    assert cs == cs[..l] + [cs[l]] + cs[l + 1..];
    assert cs[k] in cs[..l];
  }

  /** With at most one active session, at most one candidate has one. */
  lemma AtMostOneActiveCandidate(s: Store, projects: seq<Project>, owner: int, role: string)
    requires OneActive(s) && DistinctIds(projects)
    ensures |ActiveOnes(Candidates(s, projects, owner, role))| <= 1
  {
    var cs := Candidates(s, projects, owner, role);
    if |ActiveOnes(cs)| > 1 {
      ActiveOnesApart(cs, 0, 1);
      var k, l :| 0 <= k < l < |cs| && cs[k] == ActiveOnes(cs)[0] && cs[l] == ActiveOnes(cs)[1];
      TwoActive(s, projects, owner, role, cs[k], cs[l]);
      CollectedOnce(s, projects, owner, role, cs[k]);
      SortTheorem(Collected(s, projects, owner, role), "");
      TwiceInMultiset(cs, k, l);
    }
  }

  /** Candidates with an active session are the same. */
  lemma TwoActive(s: Store, projects: seq<Project>, owner: int, role: string, c: Candidate, d: Candidate)
    requires OneActive(s) && DistinctIds(projects)
    requires c in ActiveOnes(Candidates(s, projects, owner, role))
             && d in ActiveOnes(Candidates(s, projects, owner, role))
    ensures c == d
  {
    var cs := Candidates(s, projects, owner, role);
    ActiveOnesAre(cs, c);
    ActiveOnesAre(cs, d);
    CandidatesAre(s, projects, owner, role, c);
    CandidatesAre(s, projects, owner, role, d);
    hide Candidates, ActiveOnes;
    assert !Rival(SessionKey(owner, c.project.id, role), SessionKey(owner, d.project.id, role));
    var i :| 0 <= i < |projects| && projects[i] == c.project;
    var j :| 0 <= j < |projects| && projects[j] == d.project;
    assert i == j;
  }

  /** The eligible projects of an owner. */
  function Eligible(projects: seq<Project>, owner: int): seq<Project> {
    if projects == [] then []
    else
      var earlier, p := Eligible(projects[..|projects| - 1], owner), projects[|projects| - 1];
      if IsCandidate(p, owner) then earlier + [p] else earlier
  }

  lemma {:induction false} CollectedAreEligible(s: Store, projects: seq<Project>, owner: int, role: string)
    ensures var cs := Collected(s, projects, owner, role);
            |cs| == |Eligible(projects, owner)|
                && forall i | 0 <= i < |cs| :: cs[i].project == Eligible(projects, owner)[i]
  {
    if projects != [] {
      CollectedAreEligible(s, projects[..|projects| - 1], owner, role);
    }
  }

  lemma CandidatesAreEligible(s: Store, projects: seq<Project>, owner: int, role: string)
    ensures var cs, eligible := Candidates(s, projects, owner, role), Eligible(projects, owner);
            |cs| == |eligible| && (|cs| == 1 ==> cs[0].project == eligible[0])
  {
    var collected := Collected(s, projects, owner, role);
    CollectedAreEligible(s, projects, owner, role);
    SortTheorem(collected, "");
    assert |SortBySlug(collected)| == |multiset(SortBySlug(collected))| == |multiset(collected)|;
    if |collected| == 1 {
      assert SortBySlug(collected[..0]) == [];
    }
  }

  /** Which project a message without an explicit choice belongs to, in terms of the log alone:
      the one last activated with this agent, if it is still eligible, however many others are;
      otherwise the only eligible one; otherwise the owner is asked. */
  lemma ResolveTheorem(log: seq<Activation>, projects: seq<Project>, parse: SelectionParser, m: DirectMessage)
    requires ClockRuns(log) && DistinctIds(projects)
    requires IsSecondaryCandidate(m) && !RoutedAlready(m, projects) && parse(Strip(m.text.value)).None?
    ensures var text, eligible := Strip(m.text.value), Eligible(projects, m.userId);
            var last := LastProject(log, m.userId, m.botRole.value);
            var cs := Candidates(StoreAfter(log), projects, m.userId, m.botRole.value);
            var r := Resolve(StoreAfter(log), projects, parse, m);
            if exists p :: p in projects && IsCandidate(p, m.userId) && last == Some(p.id) then
              exists p :: p in projects && IsCandidate(p, m.userId) && last == Some(p.id)
                          && r == Ok(Resolved(p, text, ActiveAgentSession, cs))
            else if |eligible| == 1 then r == Ok(Resolved(eligible[0], text, SingleCandidate, cs))
            else if eligible == [] then r == Ok(NotApplicable(text))
            else r == Ok(Ambiguous(text, AmbiguousMultipleProjects, cs))
  {
    var s, owner, role := StoreAfter(log), m.userId, m.botRole.value;
    var cs := Candidates(s, projects, owner, role);
    OneActiveTheorem(log);
    AtMostOneActiveCandidate(s, projects, owner, role);
    CandidatesAreEligible(s, projects, owner, role);
    forall p | p in projects && IsCandidate(p, owner)
      ensures IsActive(s, SessionKey(owner, p.id, role)) <==> LastProject(log, owner, role) == Some(p.id)
    {
      StoreTheorem(log, SessionKey(owner, p.id, role));
      LastIsActivated(log, owner, role);
    }
    forall c ensures c in ActiveOnes(cs) <==>
                     c.project in projects && IsCandidate(c.project, owner) && c == CandidateOf(s, c.project, role)
                     && LastProject(log, owner, role) == Some(c.project.id)
    {
      ActiveOnesAre(cs, c);
      CandidatesAre(s, projects, owner, role, c);
    }
    hide StoreAfter, LastProject, Candidates, ActiveOnes, Eligible, IsCandidate, IsActive;
    assert ActiveOnes(cs) != [] ==> ActiveOnes(cs)[0] in ActiveOnes(cs);
    if p :| p in projects && IsCandidate(p, owner) && LastProject(log, owner, role) == Some(p.id) {
      assert CandidateOf(s, p, role) in ActiveOnes(cs);
      assert ActiveOnes(cs) == [CandidateOf(s, p, role)];
      assert CandidateOf(s, p, role) in cs by { ActiveOnesAre(cs, CandidateOf(s, p, role)); }
    }
  }

  lemma {:induction false} LastIsActivated(log: seq<Activation>, owner: int, role: string)
    ensures var last := LastProject(log, owner, role);
            last.Some? ==> FirstTime(log, SessionKey(owner, last.value, role)).Some?
  {
    if log != [] {
      var before, a := log[..|log| - 1], log[|log| - 1];
      assert log == before + [a];
      LastIsActivated(before, owner, role);
      if LastProject(log, owner, role).Some? {
        FirstTimeAppend(before, a, SessionKey(owner, LastProject(log, owner, role).value, role));
      }
    }
  }

  // ----- The other ways a message finds its project ---------------------------------------------------

  /** An owner's private message with some text to an agent other than the coordinator. */
  predicate IsOwnersWord(m: DirectMessage, owner: int, role: string, text: string) {
    && owner > 0 && m.chatId == owner && m.userId == owner
    && m.botRole == Some(role) && role != "coordinator_agent"
    && m.text.Some? && !AllSpaces(m.text.value) && Strip(m.text.value) == text
  }

  /** Who the candidates are, with the state of their sessions with this agent. */
  lemma CandidatesTheorem(s: Store, projects: seq<Project>, owner: int, role: string, c: Candidate)
    ensures c in Candidates(s, projects, owner, role) <==>
              && c.project in projects && c.project.owner == owner && c.project.active && c.project.allowsDm
              && var k := SessionKey(owner, c.project.id, role);
                 if k in s && s[k].status == Active then
                   c.hasActiveSession && c.lastInteractionAt == Some(s[k].lastInteractionAt)
                 else !c.hasActiveSession && c.lastInteractionAt == None
  {
    CandidatesAre(s, projects, owner, role, c);
    hide Candidates;
  }

  lemma SecondaryIsOwnersWord(m: DirectMessage)
    requires IsSecondaryCandidate(m)
    ensures IsOwnersWord(m, m.userId, m.botRole.value, Strip(m.text.value))
  {
    BlankIsAllSpaces(m.text.value);
    hide IsBlank, Strip;
  }

  /** Any other message is not for this service. */
  lemma OthersAreNotApplicable(s: Store, projects: seq<Project>, parse: SelectionParser, m: DirectMessage)
    requires forall owner, role, text :: !IsOwnersWord(m, owner, role, text)
    ensures Resolve(s, projects, parse, m) ==
            if m.text == None || m.text == Some("") then Ok(NotApplicable("not applicable"))
            else if AllSpaces(m.text.value) then Err(EmptyOwnerText)
            else Ok(NotApplicable(Strip(m.text.value)))
  {
    if m.text.Some? {
      BlankIsAllSpaces(m.text.value);
    }
    if IsSecondaryCandidate(m) {
      SecondaryIsOwnersWord(m);
    }
    NotApplicableText();
    hide IsBlank, Strip, Candidates;
  }

  lemma NotApplicableText()
    ensures !IsBlank("not applicable") && Strip("not applicable") == "not applicable"
  {
    assert LStrip("not applicable") == "not applicable" && RStrip("not applicable") == "not applicable";
  }

  lemma {:induction false} WithIdIs(projects: seq<Project>, id: string)
    ensures match WithId(projects, id)
            case None => forall p | p in projects :: p.id != id
            case Some(p) => p in projects && p.id == id
  {
    if projects != [] && projects[0].id != id {
      WithIdIs(projects[1..], id);
    }
  }

  /** A message that carries a project of the registry goes to that project, whatever it says and
      whichever projects are eligible. */
  lemma RoutedTheorem(s: Store, projects: seq<Project>, parse: SelectionParser, m: DirectMessage, owner: int,
                      role: string, text: string, p: Project)
    requires DistinctIds(projects) && IsOwnersWord(m, owner, role, text)
    requires m.fromSingleProject && m.projectId == Some(p.id) && p in projects
    ensures Resolve(s, projects, parse, m) == Ok(Resolved(p, text, OwnerDmSingleProject, []))
  {
    WithIdIs(projects, p.id);
    BlankIsAllSpaces(m.text.value);
    hide IsBlank, Strip, Candidates, WithId;
    var q := WithId(projects, p.id).value;
    var i :| 0 <= i < |projects| && projects[i] == p;
    var j :| 0 <= j < |projects| && projects[j] == q;
    assert i == j;
  }

  lemma {:induction false} WithSlugIs(cs: seq<Candidate>, slug: string)
    ensures WithSlug(cs, slug) ==
            if OfSlug(cs, slug) == [] then None else Some(OfSlug(cs, slug)[|OfSlug(cs, slug)| - 1])
  {
    if cs != [] {
      WithSlugIs(cs[..|cs| - 1], slug);
    }
  }

  /** The project is the registry's last of this slug that the owner may address this way. */
  predicate IsLastOfSlug(projects: seq<Project>, owner: int, slug: string, p: Project) {
    if projects == [] then false
    else
      var last := projects[|projects| - 1];
      if last.slug == slug && last.owner == owner && last.active && last.allowsDm then p == last
      else IsLastOfSlug(projects[..|projects| - 1], owner, slug, p)
  }

  /** Nobody has the slug. */
  predicate NoneOfSlug(projects: seq<Project>, owner: int, slug: string) {
    forall p | p in projects :: !(p.slug == slug && p.owner == owner && p.active && p.allowsDm)
  }

  lemma {:induction false} OnlyOneIsLast(projects: seq<Project>, owner: int, slug: string, p: Project)
    requires p in projects && p.slug == slug && p.owner == owner && p.active && p.allowsDm
    requires forall q | q in projects && q.owner == owner && q.active && q.allowsDm && q.slug == slug :: q == p
    ensures IsLastOfSlug(projects, owner, slug, p)
  {
    var init, last := projects[..|projects| - 1], projects[|projects| - 1];
    assert projects == init + [last];
    if !(last.slug == slug && last.owner == owner && last.active && last.allowsDm) {
      OnlyOneIsLast(init, owner, slug, p);
    }
  }

  lemma {:induction false} CollectedOfSlug(s: Store, projects: seq<Project>, owner: int, role: string, slug: string,
                                           p: Project)
    ensures var cs := OfSlug(Collected(s, projects, owner, role), slug);
            && (IsLastOfSlug(projects, owner, slug, p) ==> cs != [] && cs[|cs| - 1].project == p)
            && (NoneOfSlug(projects, owner, slug) ==> cs == [])
  {
    if projects != [] {
      var init, last := projects[..|projects| - 1], projects[|projects| - 1];
      assert projects == init + [last];
      CollectedOfSlug(s, init, owner, role, slug, p);
      if IsCandidate(last, owner) {
        OfSlugAppend(Collected(s, init, owner, role), CandidateOf(s, last, role), slug);
      }
    }
  }

  /** A message that names a project outright: it goes to the eligible project with that slug -
      the registry's last, if there were several - whatever sessions are active; with no such
      project the owner is asked; with no eligible project at all nothing applies. */
  lemma ExplicitTheorem(s: Store, projects: seq<Project>, parse: SelectionParser, m: DirectMessage, owner: int,
                        role: string, text: string, slug: string, rest: string, p: Project)
    requires IsOwnersWord(m, owner, role, text) && parse(text) == Some((slug, rest))
    requires m.fromSingleProject && m.projectId.Some? ==> forall q | q in projects :: q.id != m.projectId.value
    ensures var r, cs := Resolve(s, projects, parse, m), Candidates(s, projects, owner, role);
            && (IsLastOfSlug(projects, owner, slug, p) ==> r == Ok(Resolved(p, rest, ExplicitProjectSlug, cs)))
            && (NoneOfSlug(projects, owner, slug) ==>
                  if exists q :: q in projects && q.owner == owner && q.active && q.allowsDm then
                    r == Ok(Ambiguous(rest, ExplicitSlugNotFound, cs))
                  else r == Ok(NotApplicable(text)))
  {
    if m.projectId.Some? {
      WithIdIs(projects, m.projectId.value);
    }
    BlankIsAllSpaces(m.text.value);
    ChosenBySlug(s, projects, owner, role, slug, p);
    AnyCandidate(s, projects, owner, role);
    hide IsBlank, Strip, WithId, WithSlug, Candidates, IsLastOfSlug, NoneOfSlug, ActiveOnes;
  }

  /** What the dictionary of candidates by slug holds. */
  lemma ChosenBySlug(s: Store, projects: seq<Project>, owner: int, role: string, slug: string, p: Project)
    ensures var cs := Candidates(s, projects, owner, role);
            && (IsLastOfSlug(projects, owner, slug, p) ==>
                  cs != [] && WithSlug(cs, slug).Some? && WithSlug(cs, slug).value.project == p)
            && (NoneOfSlug(projects, owner, slug) ==> WithSlug(cs, slug) == None)
  {
    var cs := Candidates(s, projects, owner, role);
    SortTheorem(Collected(s, projects, owner, role), slug);
    WithSlugIs(cs, slug);
    CollectedOfSlug(s, projects, owner, role, slug, p);
    assert cs == [] ==> OfSlug(cs, slug) == [];
    hide WithSlug, Collected, IsLastOfSlug, NoneOfSlug, SortBySlug, BySlug, OfSlug;
  }

  lemma AnyCandidate(s: Store, projects: seq<Project>, owner: int, role: string)
    ensures Candidates(s, projects, owner, role) == [] <==>
            !exists q :: q in projects && q.owner == owner && q.active && q.allowsDm
  {
    var cs := Candidates(s, projects, owner, role);
    forall q | q in projects && q.owner == owner && q.active && q.allowsDm ensures cs != [] {
      CandidatesAre(s, projects, owner, role, CandidateOf(s, q, role));
    }
    if cs != [] {
      CandidatesAre(s, projects, owner, role, cs[0]);
    }
  }
}

/** The conversation-audit pages of the agent console: which conversations the
    audit list shows and in what order (`index`), which agents a conversation
    can be transferred to (`transfer`, `transferagent`), and the transfer itself
    (`transfersave`), which reassigns the conversation, updates the service
    record and notifies the visitor and the new agent. */
module AgentAudit {
  import opened Wrappers
  import opened JavaText
  import opened Entities

  // ---------------------------------------------------------------------------
  // index: sort order of the audit list

  datatype Direction = Asc | Desc

  /** One sort criterion: a direction and the property sorted on. */
  datatype Order = Order(direction: Direction, property: string)

  /** The chosen sort (`None` is a null `Sort`: the repository's own order)
      and the `sort` attribute echoed to the page, if any. */
  datatype SortChoice = SortChoice(sort: Option<seq<Order>>, echo: Option<string>)

  const StatusDesc: Order := Order(Desc, "status")

  /** The sort the `sort` request parameter selects: in-service first by
      default, then by latest message or by login time on request; an
      unrecognised value leaves the list unsorted. Only the two explicit
      orders are echoed back to the page. */
  function ChooseSort(sort: JString): (r: SortChoice)
    ensures IsBlank(sort) ==> r == SortChoice(Some([StatusDesc]), None)
    ensures sort == Some("lastmessage") ==>
              r == SortChoice(Some([StatusDesc, Order(Desc, "lastmessage")]), Some("lastmessage"))
    ensures sort == Some("logintime") ==>
              r == SortChoice(Some([StatusDesc, Order(Desc, "createtime")]), Some("logintime"))
    ensures sort == Some("default") ==> r == SortChoice(Some([StatusDesc]), None)
    ensures !IsBlank(sort) && sort.value != "lastmessage" && sort.value != "logintime" && sort.value != "default" ==>
              r == SortChoice(None, None)
    ensures r.sort.Some? ==> |r.sort.value| > 0 && r.sort.value[0] == StatusDesc
    ensures r.echo.Some? <==> sort == Some("lastmessage") || sort == Some("logintime")
    ensures r.echo.Some? ==> sort == r.echo
  {
    NotBlankByFirst("lastmessage");
    NotBlankByFirst("logintime");
    NotBlankByFirst("default");
    if !IsBlank(sort) then
      var s := sort.value;
      var criteria :=
        if s == "lastmessage" then [StatusDesc, Order(Desc, "lastmessage")]
        else if s == "logintime" then [StatusDesc, Order(Desc, "createtime")]
        else [];
      var fallback := if s == "default" then Some([StatusDesc]) else None;
      if |criteria| > 0 then SortChoice(Some(criteria), Some(s)) else SortChoice(fallback, None)
    else
      SortChoice(Some([StatusDesc]), None)
  }

  // ---------------------------------------------------------------------------
  // index: which conversations the audit list shows

  /** The four derived repository queries `index` may issue, by their
      parameters. */
  datatype Query =
    | OrgiStatusAgentnoIsNot(orgi: string, status: string, excluded: JString)
    | OrgiStatusSkillAgentno(orgi: string, status: string, skill: JString, agentno: JString)
    | OrgiStatusSkillAgentnoIsNot(orgi: string, status: string, skill: JString, excluded: JString)
    | OrgiStatusAgentno(orgi: string, status: string, agentno: JString)

  /** The conversations a query selects: equality on every named field,
      inequality on the `IsNot` one. */
  predicate Matches(q: Query, au: AgentUser) {
    au.orgi == Some(q.orgi) && au.status == Some(q.status) &&
    match q
    case OrgiStatusAgentnoIsNot(_, _, excluded) => au.agentno != excluded
    case OrgiStatusSkillAgentno(_, _, skill, agentno) => au.skill == skill && au.agentno == agentno
    case OrgiStatusSkillAgentnoIsNot(_, _, skill, excluded) => au.skill == skill && au.agentno != excluded
    case OrgiStatusAgentno(_, _, agentno) => au.agentno == agentno
  }

  /** The query, and the `skill` and `agentno` view attributes (`None`: not set). */
  datatype QueryChoice = QueryChoice(query: Query, skillAttr: JString, agentnoAttr: JString)

  /** The audit list's query: conversations of the organisation that are in
      service, narrowed by skill group and/or agent when those are given;
      with neither given, the logged-in agent's own conversations are left out.
      With a skill but no agent, the (blank) agent parameter itself is what is
      excluded. */
  function ChooseQuery(orgi: string, skill: JString, agentno: JString, logined: string): (r: QueryChoice)
    ensures r.query.orgi == orgi && r.query.status == INSERVICE
    ensures forall au :: Matches(r.query, au) ==> au.status == Some(INSERVICE) && au.orgi == Some(orgi)
    ensures IsBlank(skill) && IsBlank(agentno) ==>
              r.query == OrgiStatusAgentnoIsNot(orgi, INSERVICE, Some(logined)) &&
              forall au :: Matches(r.query, au) ==> au.agentno != Some(logined)
    ensures !IsBlank(skill) && !IsBlank(agentno) ==>
              r.query == OrgiStatusSkillAgentno(orgi, INSERVICE, skill, agentno) &&
              forall au :: Matches(r.query, au) ==> au.skill == skill && au.agentno == agentno
    ensures !IsBlank(skill) && IsBlank(agentno) ==>
              r.query == OrgiStatusSkillAgentnoIsNot(orgi, INSERVICE, skill, agentno) &&
              forall au :: Matches(r.query, au) ==> au.skill == skill && au.agentno != agentno
    ensures IsBlank(skill) && !IsBlank(agentno) ==>
              r.query == OrgiStatusAgentno(orgi, INSERVICE, agentno) &&
              forall au :: Matches(r.query, au) ==> au.agentno == agentno
    ensures r.skillAttr == (if IsBlank(skill) then None else skill)
    ensures r.agentnoAttr == (if IsBlank(agentno) then None else agentno)
  {
    if IsBlank(skill) && IsBlank(agentno) then
      QueryChoice(OrgiStatusAgentnoIsNot(orgi, INSERVICE, Some(logined)), None, None)
    else if !IsBlank(skill) && !IsBlank(agentno) then
      QueryChoice(OrgiStatusSkillAgentno(orgi, INSERVICE, skill, agentno), skill, agentno)
    else if !IsBlank(skill) then
      QueryChoice(OrgiStatusSkillAgentnoIsNot(orgi, INSERVICE, skill, agentno), skill, None)
    else
      QueryChoice(OrgiStatusAgentno(orgi, INSERVICE, agentno), None, agentno)
  }

  // ---------------------------------------------------------------------------
  // transfer: default skill group and the ready agents to choose from

  /** The skill group preselected in the transfer dialog: the user's first
      organ when it is not blank, otherwise the first listed skill group,
      otherwise whatever the first lookup gave (a blank organ id, or null). */
  function DefaultOrgan(organs: seq<string>, skillGroups: seq<Organ>): (r: JString)
    ensures |organs| > 0 && !IsBlank(Some(organs[0])) ==> r == Some(organs[0])
    ensures (|organs| == 0 || IsBlank(Some(organs[0]))) && |skillGroups| > 0 ==> r == Some(skillGroups[0].id)
    ensures |organs| == 0 && |skillGroups| == 0 ==> r == None
    ensures |organs| > 0 && IsBlank(Some(organs[0])) && |skillGroups| == 0 ==> r == Some(organs[0])
    ensures r.Some? ==> (|organs| > 0 && r.value == organs[0]) || (|skillGroups| > 0 && r.value == skillGroups[0].id)
  {
    var currentOrgan: JString := if |organs| > 0 then Some(organs[0]) else None;
    if IsBlank(currentOrgan) && |skillGroups| > 0 then Some(skillGroups[0].id) else currentOrgan
  }

  /** A transfer target shown in the dialog: the agent's id, user record and
      the agent status attached to it (`None`: none attached). */
  datatype Candidate = Candidate(id: string, user: User, status: Option<AgentStatus>)

  /** The ids of the ready agents other than the conversation's current agent.
      The ready map's keys come in no particular order, so neither does the
      result; each appears once. */
  method ReadyCandidateIds(ready: map<string, AgentStatus>, agentnoid: JString) returns (ids: seq<string>)
    ensures forall x :: x in ids <==> x in ready && Some(x) != agentnoid
    ensures forall i, j :: 0 <= i < j < |ids| ==> ids[i] != ids[j]
  {
    ids := [];
    var pending := ready.Keys;
    while pending != {}
      invariant pending <= ready.Keys
      invariant forall x :: x in ids <==> x in ready && x !in pending && Some(x) != agentnoid
      invariant forall i, j :: 0 <= i < j < |ids| ==> ids[i] != ids[j]
      decreases pending
    {
      var o :| o in pending;
      if Some(o) != agentnoid {
        ids := ids + [o];
      }
      pending := pending - {o};
    }
  }

  /** `findAll(ids)` on the user repository: the stored users among `ids`,
      each loaded once (at its first request) and without an agent status. */
  function FindAll(users: map<string, User>, ids: seq<string>): (r: seq<Candidate>)
    ensures forall i :: 0 <= i < |r| ==>
              r[i].id in ids && r[i].id in users && r[i].user == users[r[i].id] && r[i].status.None?
    ensures forall i, j :: 0 <= i < j < |r| ==> r[i].id != r[j].id
    decreases |ids|
  {
    if ids == [] then []
    else
      var front := ids[..|ids| - 1];
      var last := ids[|ids| - 1];
      FindAll(users, front) +
      (if last in users && last !in front then [Candidate(last, users[last], None)] else [])
  }

  /** Every requested user that is stored is loaded. */
  lemma {:induction false} FindAllComplete(users: map<string, User>, ids: seq<string>, id: string)
    requires id in ids && id in users
    ensures exists i :: 0 <= i < |FindAll(users, ids)| && FindAll(users, ids)[i].id == id
    decreases |ids|
  {
    var r := FindAll(users, ids);
    var front := ids[..|ids| - 1];
    if id in front {
      FindAllComplete(users, front, id);
      var rest := FindAll(users, front);
      var i :| 0 <= i < |rest| && rest[i].id == id;
      assert r[i] == rest[i];
    } else {
      assert id == ids[|ids| - 1];
      assert r[|r| - 1].id == id;
    }
  }

  /** Attaches to each ready candidate its entry of the ready map. */
  method AttachReadyStatuses(found: seq<Candidate>, ready: map<string, AgentStatus>) returns (r: seq<Candidate>)
    ensures |r| == |found|
    ensures forall i :: 0 <= i < |r| ==> r[i] == found[i].(status := Find(ready, Some(found[i].id)))
  {
    r := [];
    var k := 0;
    while k < |found|
      invariant 0 <= k <= |found| && |r| == k
      invariant forall i :: 0 <= i < k ==> r[i] == found[i].(status := Find(ready, Some(found[i].id)))
    {
      r := r + [found[k].(status := Find(ready, Some(found[k].id)))];
      k := k + 1;
    }
  }

  /** What the transfer dialog is given. */
  datatype TransferView = TransferView(
    userList: seq<Candidate>,
    userid: JString,
    agentserviceid: JString,
    agentuserid: JString,
    agentnoid: JString,
    skillGroups: seq<Organ>,
    agentservice: Option<AgentService>,
    currentOrgan: JString)

  /** The transfer dialog for a conversation. Nothing is prepared unless both
      the visitor and the conversation are named. Every agent offered is ready,
      has a user record, carries its ready status and is not the conversation's
      current agent; every such agent is offered, and none twice. */
  method Transfer(
    userid: JString, agentserviceid: JString, agentnoid: JString, agentuserid: JString,
    logined: User, skillGroups: seq<Organ>, ready: map<string, AgentStatus>,
    users: map<string, User>, services: map<string, AgentService>)
    returns (v: Option<TransferView>)
    ensures v.Some? <==> !IsBlank(userid) && !IsBlank(agentuserid)
    ensures v.Some? ==>
              v.value.currentOrgan == DefaultOrgan(logined.organs, skillGroups) &&
              v.value.agentservice == Find(services, agentserviceid) &&
              v.value.skillGroups == skillGroups &&
              v.value.userid == userid && v.value.agentuserid == agentuserid &&
              v.value.agentserviceid == agentserviceid && v.value.agentnoid == agentnoid
    ensures v.Some? ==> forall i :: 0 <= i < |v.value.userList| ==>
              var c := v.value.userList[i];
              Some(c.id) != agentnoid && c.id in ready && c.id in users &&
              c.user == users[c.id] && c.status == Some(ready[c.id])
    ensures v.Some? ==> forall id :: id in ready && id in users && Some(id) != agentnoid ==>
              exists i :: 0 <= i < |v.value.userList| && v.value.userList[i].id == id
    ensures v.Some? ==> forall i, j :: 0 <= i < j < |v.value.userList| ==> v.value.userList[i].id != v.value.userList[j].id
  {
    if IsBlank(userid) || IsBlank(agentuserid) {
      return None;
    }
    var currentOrgan := DefaultOrgan(logined.organs, skillGroups);
    var ids := ReadyCandidateIds(ready, agentnoid);
    var found := FindAll(users, ids);
    var userList := AttachReadyStatuses(found, ready);
    v := Some(TransferView(userList, userid, agentserviceid, agentuserid, agentnoid, skillGroups,
                           Find(services, agentserviceid), currentOrgan));
    forall id | id in ready && id in users && Some(id) != agentnoid
      ensures exists i :: 0 <= i < |userList| && userList[i].id == id
    {
      assert id in ids;
      FindAllComplete(users, ids, id);
      var i :| 0 <= i < |found| && found[i].id == id;
      assert userList[i].id == id;
    }
  }

  // ---------------------------------------------------------------------------
  // transferagent: the agents of one skill group

  /** The agent numbers of the non-null entries of a skill group's status
      list, in list order, leaving out the conversation's current agent. */
  function OtherAgentnos(list: seq<Option<AgentStatus>>, agentnoid: JString): seq<string>
    decreases |list|
  {
    if list == [] then []
    else
      var last := list[|list| - 1];
      OtherAgentnos(list[..|list| - 1], agentnoid) +
      (if last.Some? && Some(last.value.agentno) != agentnoid then [last.value.agentno] else [])
  }

  /** The candidate ids are exactly the agent numbers of the non-null status
      entries, minus the current agent: the current agent is never offered. */
  lemma {:induction false} OtherAgentnosMembers(list: seq<Option<AgentStatus>>, agentnoid: JString, x: string)
    ensures x in OtherAgentnos(list, agentnoid) <==>
              Some(x) != agentnoid && exists i :: 0 <= i < |list| && list[i].Some? && list[i].value.agentno == x
    decreases |list|
  {
    if list != [] {
      var init := list[..|list| - 1];
      OtherAgentnosMembers(init, agentnoid, x);
      if exists i :: 0 <= i < |init| && init[i].Some? && init[i].value.agentno == x {
        var i :| 0 <= i < |init| && init[i].Some? && init[i].value.agentno == x;
        assert list[i] == init[i];
      }
      if exists i :: 0 <= i < |list| && list[i].Some? && list[i].value.agentno == x {
        var i :| 0 <= i < |list| && list[i].Some? && list[i].value.agentno == x;
        if i < |init| {
          assert init[i] == list[i];
        }
      }
    }
  }

  /** The filtering loop of `transferagent`. */
  method SkillCandidateIds(list: seq<Option<AgentStatus>>, agentnoid: JString) returns (ids: seq<string>)
    ensures ids == OtherAgentnos(list, agentnoid)
  {
    ids := [];
    var k := 0;
    while k < |list|
      invariant 0 <= k <= |list|
      invariant ids == OtherAgentnos(list[..k], agentnoid)
    {
      var agentStatus := list[k];
      if agentStatus.Some? && Some(agentStatus.value.agentno) != agentnoid {
        ids := ids + [agentStatus.value.agentno];
      }
      assert list[..k + 1][..k] == list[..k];
      k := k + 1;
    }
    assert list[..k] == list;
  }

  /** The status attached to agent `id`: the first non-null entry of the list
      with that agent number. */
  function FirstStatus(list: seq<Option<AgentStatus>>, id: string): (r: Option<AgentStatus>)
    ensures r.Some? ==> r.value.agentno == id && exists i :: 0 <= i < |list| && list[i] == r
    ensures r.Some? ==> forall i :: 0 <= i < |list| && list[i].Some? && list[i].value.agentno == id && list[i] != r ==>
              exists j :: 0 <= j < i && list[j] == r
    ensures r.None? <==> forall i :: 0 <= i < |list| && list[i].Some? ==> list[i].value.agentno != id
    decreases |list|
  {
    if list == [] then None
    else if list[0].Some? && list[0].value.agentno == id then list[0]
    else
      var r := FirstStatus(list[1..], id);
      assert forall i :: 1 <= i < |list| ==> list[i] == list[1..][i - 1];
      r
  }

  /** The outcome of the attaching loop of `transferagent` as the source
      writes it: it reads the agent number of every entry it passes. */
  datatype StatusScan = Attached(status: AgentStatus) | NoneAttached | NullDereference

  /** The attaching scan as written: it dereferences a null entry that comes
      before the first match. */
  function FirstStatusAsWritten(list: seq<Option<AgentStatus>>, id: string): (r: StatusScan)
    ensures r == NullDereference <==>
              exists i :: 0 <= i < |list| && list[i].None? && forall j :: 0 <= j < i ==> list[j].Some? && list[j].value.agentno != id
    ensures (forall i :: 0 <= i < |list| ==> list[i].Some?) ==>
              r == (if FirstStatus(list, id).Some? then Attached(FirstStatus(list, id).value) else NoneAttached)
    decreases |list|
  {
    if list == [] then NoneAttached
    else if list[0].None? then NullDereference
    else if list[0].value.agentno == id then Attached(list[0].value)
    else
      var r := FirstStatusAsWritten(list[1..], id);
      assert forall i :: 1 <= i < |list| ==> list[i] == list[1..][i - 1];
      if r == NullDereference then
        var i :| 0 <= i < |list[1..]| && list[1..][i].None? &&
                 forall j :: 0 <= j < i ==> list[1..][j].Some? && list[1..][j].value.agentno != id;
        assert forall j :: 0 <= j < i + 1 ==> list[j].Some? && list[j].value.agentno != id by {
          forall j | 0 <= j < i + 1 ensures list[j].Some? && list[j].value.agentno != id {
            if j > 0 { assert list[j] == list[1..][j - 1]; }
          }
        }
        r
      else
        r
  }

  /** A skill group whose status list has a null entry ahead of an agent's
      entry: the filtering loop skips the null and offers the agent, and the
      attaching loop then dereferences the null, while the corrected scan
      attaches the agent's status. */
  lemma NullEntryBreaksAttach()
    ensures var list := [None, Some(AgentStatus("a", None))];
            OtherAgentnos(list, None) == ["a"] &&
            FirstStatusAsWritten(list, "a") == NullDereference &&
            FirstStatus(list, "a") == Some(AgentStatus("a", None))
  {
    var list: seq<Option<AgentStatus>> := [None, Some(AgentStatus("a", None))];
    assert list[..1] == [None];
    assert list[..1][..0] == [];
    assert list[1..] == [Some(AgentStatus("a", None))];
  }

  /** The attaching loop of `transferagent` (with null entries skipped): each
      user gets the first status entry with its agent number. */
  method AttachSkillStatuses(found: seq<Candidate>, list: seq<Option<AgentStatus>>) returns (r: seq<Candidate>)
    ensures |r| == |found|
    ensures forall i :: 0 <= i < |r| ==> r[i] == found[i].(status := FirstStatus(list, found[i].id))
  {
    r := [];
    var k := 0;
    while k < |found|
      invariant 0 <= k <= |found| && |r| == k
      invariant forall i :: 0 <= i < k ==> r[i] == found[i].(status := FirstStatus(list, found[i].id))
    {
      var user := found[k];
      var attached: Option<AgentStatus> := None;
      var n := 0;
      while n < |list|
        invariant 0 <= n <= |list|
        invariant FirstStatus(list, user.id) == FirstStatus(list[n..], user.id)
      {
        var entry := list[n];
        if entry.Some? && entry.value.agentno == user.id {
          attached := entry;
          break;
        }
        assert list[n..][1..] == list[n + 1..];
        n := n + 1;
      }
      r := r + [user.(status := attached)];
      k := k + 1;
    }
  }

  /** A status entry whose agent can be offered: non-null, with a user
      record, and not the conversation's current agent. */
  predicate OfferableEntry(entry: Option<AgentStatus>, users: map<string, User>, agentnoid: JString) {
    entry.Some? && entry.value.agentno in users && Some(entry.value.agentno) != agentnoid
  }

  /** What the skill-group agent list is given. */
  datatype TransferAgentView = TransferAgentView(userList: seq<Candidate>, currentOrgan: string)

  /** The agent list of one skill group for the transfer dialog. Nothing is
      prepared without a skill group. Every agent offered has a non-null status
      entry in the group, has a user record, is not the conversation's current
      agent and carries the group's first status entry for it; every agent of
      the group with a user record, other than the current one, is offered,
      and none twice. */
  method TransferAgent(
    agentnoid: JString, organ: JString, agentStatusList: seq<Option<AgentStatus>>,
    users: map<string, User>)
    returns (v: Option<TransferAgentView>)
    ensures v.Some? <==> !IsBlank(organ)
    ensures v.Some? ==> v.value.currentOrgan == organ.value
    ensures v.Some? ==> forall i :: 0 <= i < |v.value.userList| ==>
              var c := v.value.userList[i];
              Some(c.id) != agentnoid && c.id in users && c.user == users[c.id] &&
              c.status == FirstStatus(agentStatusList, c.id) && c.status.Some?
    ensures v.Some? ==>
              forall j :: 0 <= j < |agentStatusList| && OfferableEntry(agentStatusList[j], users, agentnoid) ==>
                exists i :: 0 <= i < |v.value.userList| && v.value.userList[i].id == agentStatusList[j].value.agentno
    ensures v.Some? ==> forall i, j :: 0 <= i < j < |v.value.userList| ==> v.value.userList[i].id != v.value.userList[j].id
  {
    if IsBlank(organ) {
      return None;
    }
    var usersids := SkillCandidateIds(agentStatusList, agentnoid);
    var found := FindAll(users, usersids);
    var userList := AttachSkillStatuses(found, agentStatusList);
    forall i | 0 <= i < |userList|
      ensures Some(userList[i].id) != agentnoid && userList[i].status.Some?
    {
      OtherAgentnosMembers(agentStatusList, agentnoid, found[i].id);
    }
    forall j | 0 <= j < |agentStatusList| && OfferableEntry(agentStatusList[j], users, agentnoid)
      ensures exists i :: 0 <= i < |userList| && userList[i].id == agentStatusList[j].value.agentno
    {
      var x := agentStatusList[j].value.agentno;
      OtherAgentnosMembers(agentStatusList, agentnoid, x);
      FindAllComplete(users, usersids, x);
      var i :| 0 <= i < |found| && found[i].id == x;
      assert userList[i].id == x;
    }
    v := Some(TransferAgentView(userList, organ.value));
  }

  // ---------------------------------------------------------------------------
  // transfersave: moving a conversation to another agent

  datatype Receiver = Visitor | Agent

  /** The channel a notice goes out on: the conversation's own channel (as
      named by the conversation) or the agents' web IM channel. */
  datatype ChannelRef = ChannelNamed(name: JString) | WebIm

  datatype MessageKind = Status | New

  /** The notice body: the success text, its media type and call direction,
      the conversation and service record it is about, and the conversation
      again as channel message once that is set. */
  datatype OutMessage = OutMessage(
    message: string,
    messageType: string,
    calltype: string,
    agentUser: AgentUser,
    agentService: Option<AgentService>,
    channelMessage: Option<AgentUser>)

  /** One `peerSyncIM.send` call. */
  datatype Notice = Notice(
    receiver: Receiver, channel: ChannelRef, appid: JString, kind: MessageKind, to: JString, payload: OutMessage)

  /** The notices a transfer of an in-service conversation sends, given the
      success text (`None`: composing it failed, the failure is caught and
      nothing is sent): a STATUS notice to the visitor when the conversation
      names one, then a NEW notice to the service record's agent (a missing
      service record fails inside the same guarded block, after the visitor's
      notice). */
  function TransferNotices(au: AgentUser, svc: Option<AgentService>, text: Option<string>): (r: seq<Notice>)
    ensures |r| <= 2
    ensures text.None? ==> r == []
    ensures (|r| > 0 && r[0].receiver == Visitor) <==> text.Some? && !IsBlank(au.userid)
    ensures (|r| > 0 && r[|r| - 1].receiver == Agent) <==> text.Some? && svc.Some?
    ensures forall i :: 0 <= i < |r| && r[i].receiver == Visitor ==> i == 0
    ensures forall i :: 0 <= i < |r| && r[i].receiver == Agent ==> i == |r| - 1
    ensures forall i :: 0 <= i < |r| && r[i].receiver == Visitor ==>
              r[i].kind == Status && r[i].to == au.userid && r[i].channel == ChannelNamed(au.channel) &&
              r[i].payload.channelMessage.None?
    ensures forall i :: 0 <= i < |r| && r[i].receiver == Agent ==>
              svc.Some? && r[i].kind == New && r[i].to == svc.value.agentno && r[i].channel == WebIm &&
              r[i].payload.channelMessage == Some(au)
    ensures forall i :: 0 <= i < |r| ==>
              text.Some? && r[i].appid == au.appid && r[i].payload.message == text.value &&
              r[i].payload.messageType == MEDIA_TEXT && r[i].payload.calltype == CALLTYPE_IN &&
              r[i].payload.agentUser == au && r[i].payload.agentService == svc
  {
    if text.None? then []
    else
      var outMessage := OutMessage(text.value, MEDIA_TEXT, CALLTYPE_IN, au, svc, None);
      var toVisitor := if !IsBlank(au.userid) then [Notice(Visitor, ChannelNamed(au.channel), au.appid, Status, au.userid, outMessage)]
                       else [];
      var toAgent := if svc.Some? then [Notice(Agent, WebIm, au.appid, New, svc.value.agentno, outMessage.(channelMessage := Some(au)))]
                     else [];
      toVisitor + toAgent
  }

  /** Removing a visitor from one agent's set of served visitors; every other
      agent's set, and which agents have a set, stay as they were. */
  function WithoutVisitor(served: map<string, set<string>>, agentno: string, userid: JString): (r: map<string, set<string>>)
    ensures r.Keys == served.Keys
    ensures forall a :: a in r && a != agentno ==> r[a] == served[a]
    ensures agentno in r ==> r[agentno] == served[agentno] - (if userid.Some? then {userid.value} else {})
  {
    if agentno in served && userid.Some? then served[agentno := served[agentno] - {userid.value}] else served
  }

  /** The service record after a transfer: it names the target agent, is
      marked transferred, and takes the memo only when one is given. */
  function Transferred(svc: AgentService, agentno: JString, memo: JString): (r: AgentService)
    ensures r.agentno == agentno && r.trans
    ensures IsBlank(memo) ==> r.transmemo == svc.transmemo
    ensures !IsBlank(memo) ==> r.transmemo == memo
    ensures r.agentusername == svc.agentusername
  {
    var s := svc.(agentno := agentno);
    var s := if !IsBlank(memo) then s.(transmemo := memo) else s;
    s.(trans := true)
  }

  /** A transfer request that is acted on names the visitor, the conversation
      and the target agent. */
  predicate TransferRequested(userid: JString, agentuserid: JString, agentno: JString) {
    !IsBlank(userid) && !IsBlank(agentuserid) && !IsBlank(agentno)
  }

  /** Why `transfersave` ends in an exception: the conversation cannot be
      resolved, the target agent has no user record, or the service record is
      missing where it is written. */
  datatype Failure = UnknownAgentUser | TargetUserMissing | ServiceRecordMissing

  datatype Outcome = Redirected | Failed(failure: Failure)

  /** The state `transfersave` reads and writes, as plain maps: the user,
      conversation and service record repositories, the cached agent statuses
      and each agent's set of served visitors, the agents whose status was
      recomputed and broadcast, and the notices sent. */
  class CallCenter {
    var users: map<string, User>
    var agentUsers: map<string, AgentUser>
    var services: map<string, AgentService>
    var statuses: map<string, AgentStatus>
    var served: map<string, set<string>>
    var refreshed: seq<string>
    var outbox: seq<Notice>

    /** Transfers conversation `agentuserid` of visitor `userid` from agent
        `currentAgentnoid` to agent `agentno`. `successMessage` stands for the
        foreign composition of the success text (`None`: it throws). */
    method TransferSave(
      userid: JString, agentserviceid: JString, agentuserid: JString, currentAgentnoid: JString,
      agentno: JString, memo: JString, successMessage: (Option<AgentService>, JString) -> Option<string>)
      returns (outcome: Outcome)
      modifies this
      ensures users == old(users) && statuses == old(statuses)
      ensures !TransferRequested(userid, agentuserid, agentno) ==> outcome == Redirected && unchanged(this)
      ensures TransferRequested(userid, agentuserid, agentno) && Find(old(agentUsers), agentuserid).None? ==>
                outcome == Failed(UnknownAgentUser) && unchanged(this)
      ensures TransferRequested(userid, agentuserid, agentno) && Find(old(agentUsers), agentuserid).Some? &&
              Find(old(users), agentno).None? ==>
                outcome == Failed(TargetUserMissing) && unchanged(this)
      ensures TransferRequested(userid, agentuserid, agentno) && Find(old(agentUsers), agentuserid).Some? &&
              Find(old(users), agentno).Some? ==>
                var au := old(agentUsers)[agentuserid.value].(agentno := agentno, agentname := old(users)[agentno.value].uname);
                var inService := au.status == Some(INSERVICE);
                var source := Find(old(statuses), currentAgentnoid);
                var target := Find(old(statuses), agentno);
                var svc := Find(old(services), agentserviceid);
                var notified :=
                  if inService && target.Some? && svc.Some?
                  then Some(svc.value.(agentno := agentno, agentusername := target.value.username))
                  else svc;
                agentUsers == old(agentUsers)[agentuserid.value := au] &&
                au.agentno == agentno &&
                (if inService && source.Some?
                 then served == WithoutVisitor(old(served), currentAgentnoid.value, userid) &&
                      refreshed == old(refreshed) + [currentAgentnoid.value]
                 else served == old(served) && refreshed == old(refreshed)) &&
                (if inService && target.Some? && svc.None?
                 then outcome == Failed(ServiceRecordMissing) && outbox == old(outbox) && services == old(services)
                 else outcome == Redirected &&
                      outbox == old(outbox) +
                        (if inService then TransferNotices(au, notified, successMessage(notified, au.channel)) else []) &&
                      services == (if svc.Some?
                                   then old(services)[agentserviceid.value := Transferred(notified.value, agentno, memo)]
                                   else old(services)))
    {
      if !TransferRequested(userid, agentuserid, agentno) {
        return Redirected;
      }
      var targetAgent := Find(users, agentno);
      var agentService := Find(services, agentserviceid);
      var resolved := Find(agentUsers, agentuserid);
      if resolved.None? {
        return Failed(UnknownAgentUser);
      }
      if targetAgent.None? {
        return Failed(TargetUserMissing);
      }
      var agentUser := resolved.value.(agentno := agentno, agentname := targetAgent.value.uname);
      outcome := Reassign(userid, agentserviceid, agentuserid.value, agentUser, currentAgentnoid, agentno, memo, successMessage);
    }

    /** Lines 341-411, once the conversation is resolved and the target agent
        found: `au` is the conversation already naming the target agent. */
    method Reassign(
      userid: JString, agentserviceid: JString, agentuserid: string, au: AgentUser, currentAgentnoid: JString,
      agentno: JString, memo: JString, successMessage: (Option<AgentService>, JString) -> Option<string>)
      returns (outcome: Outcome)
      modifies this
      ensures users == old(users) && statuses == old(statuses)
      ensures agentUsers == old(agentUsers)[agentuserid := au]
      ensures var inService := au.status == Some(INSERVICE);
              var source := Find(old(statuses), currentAgentnoid);
              if inService && source.Some?
              then served == WithoutVisitor(old(served), currentAgentnoid.value, userid) &&
                   refreshed == old(refreshed) + [currentAgentnoid.value]
              else served == old(served) && refreshed == old(refreshed)
      ensures var inService := au.status == Some(INSERVICE);
              var target := Find(old(statuses), agentno);
              var svc := Find(old(services), agentserviceid);
              var notified :=
                if inService && target.Some? && svc.Some?
                then Some(svc.value.(agentno := agentno, agentusername := target.value.username))
                else svc;
              if inService && target.Some? && svc.None?
              then outcome == Failed(ServiceRecordMissing) && outbox == old(outbox) && services == old(services)
              else outcome == Redirected &&
                   outbox == old(outbox) +
                     (if inService then TransferNotices(au, notified, successMessage(notified, au.channel)) else []) &&
                   services == (if svc.Some?
                                then old(services)[agentserviceid.value := Transferred(notified.value, agentno, memo)]
                                else old(services))
    {
      var agentService := Find(services, agentserviceid);
      var agentUser := au;
      agentUsers := agentUsers[agentuserid := agentUser];

      var transAgentStatus := Find(statuses, agentno);
      var currentAgentStatus := Find(statuses, currentAgentnoid);

      if agentUser.status == Some(INSERVICE) {
        if currentAgentStatus.Some? {
          ReleaseVisitor(currentAgentnoid.value, userid);
        }
        if transAgentStatus.Some? {
          if agentService.None? {
            return Failed(ServiceRecordMissing);
          }
          agentService := Some(agentService.value.(agentno := agentno, agentusername := transAgentStatus.value.username));
        }
        outbox := outbox + TransferNotices(agentUser, agentService, successMessage(agentService, agentUser.channel));
      }

      if agentService.Some? {
        SaveTransferred(agentserviceid.value, agentService.value, agentno, memo);
      }
      return Redirected;
    }

    /** Lines 358-361: the visitor leaves the source agent's served set and
        the source agent's status is recomputed. */
    method ReleaseVisitor(currentAgentno: string, userid: JString)
      modifies this
      ensures served == WithoutVisitor(old(served), currentAgentno, userid)
      ensures refreshed == old(refreshed) + [currentAgentno]
      ensures users == old(users) && agentUsers == old(agentUsers) && services == old(services)
      ensures statuses == old(statuses) && outbox == old(outbox)
    {
      served := WithoutVisitor(served, currentAgentno, userid);
      refreshed := refreshed + [currentAgentno];
    }

    /** Lines 403-411: the service record is saved as transferred. */
    method SaveTransferred(agentserviceid: string, svc: AgentService, agentno: JString, memo: JString)
      modifies this
      ensures services == old(services)[agentserviceid := Transferred(svc, agentno, memo)]
      ensures users == old(users) && agentUsers == old(agentUsers) && served == old(served)
      ensures statuses == old(statuses) && outbox == old(outbox) && refreshed == old(refreshed)
    {
      services := services[agentserviceid := Transferred(svc, agentno, memo)];
    }
  }
}

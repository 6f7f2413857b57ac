/** The userbot's HTTP endpoints: each passes its request to the userbot and turns the result,
    or the exception it raised, into an `ok` / `result_code` response. */
module Bot1Api {
  import opened Common
  import opened Transport
  import Userbot
  import FallbackStore
  import opened Responses

  datatype CreateGroupRequest = CreateGroupRequest(
    orderId: string,
    title: string,
    description: Option<string>,
    iconBase64: Option<string>,
    curatorId: int,
    curatorLabel: string,
    contractorIds: seq<int>,
    bot2Username: Option<string>,
    bot3Username: Option<string>)

  datatype CreateGroupResponse = CreateGroupResponse(
    ok: bool, resultCode: string, groupId: Option<int>, groupLink: Option<string>, error: Option<string>)

  datatype RemoveContractorRequest = RemoveContractorRequest(chatId: int, contractorId: int)

  datatype SendFallbackMessageRequest = SendFallbackMessageRequest(contractorId: int, groupId: int, text: string)

  /** The arguments `create_group` hands to the userbot: every request field but `order_id`,
      unchanged. */
  function SetupOf(req: CreateGroupRequest): (g: Userbot.GroupSetup)
    ensures g.title == req.title && g.description == req.description && g.iconBase64 == req.iconBase64
    ensures g.curatorId == req.curatorId && g.curatorLabel == req.curatorLabel
    ensures g.contractorIds == req.contractorIds
    ensures g.bot2Username == req.bot2Username && g.bot3Username == req.bot3Username
  {
    Userbot.GroupSetup(req.title, req.description, req.iconBase64, req.curatorId, req.curatorLabel,
      req.contractorIds, req.bot2Username, req.bot3Username)
  }

  /** `OK` with the group's id and link exactly when the userbot's result is ok; otherwise
      `ERROR` with the userbot's error text and neither id nor link. */
  function CreateGroupResponseOf(res: Userbot.GroupResult): (r: CreateGroupResponse)
    ensures r.ok == res.ok
    ensures r.ok ==> r.resultCode == "OK" && r.groupId == res.groupId && r.groupLink == res.groupLink && r.error.None?
    ensures !r.ok ==> r.resultCode == "ERROR" && r.error == res.error && r.groupId.None? && r.groupLink.None?
  {
    if res.ok then CreateGroupResponse(true, "OK", res.groupId, res.groupLink, None)
    else CreateGroupResponse(false, "ERROR", None, None, res.error)
  }

  /** `create_group` end to end: the response is `OK` exactly when no call of the
      provisioning failed hard, and then it carries the id of the group that was created;
      if the creation itself failed, the response is `ERROR` with that failure's text. */
  lemma CreateGroupEndToEnd(req: CreateGroupRequest, script: seq<Outcome>)
    ensures var run := Userbot.Provision(SetupOf(req), script);
      var r := CreateGroupResponseOf(run.result);
      (r.ok <==> Userbot.NoHardFailure(run.log)) &&
      (r.ok ==> r.groupId == Some(run.log[0].outcome.reply.id)) &&
      (run.log[0].outcome.Err? ==> r == CreateGroupResponse(false, "ERROR", None, None, Some(run.log[0].outcome.error.message)))
  {
    Userbot.ProvisionOkIffNoHardFailure(SetupOf(req), script);
  }

  /** `remove_contractor` end to end: `OK` exactly when both the ban and the unban succeeded. */
  lemma RemoveContractorEndToEnd(req: RemoveContractorRequest, script: seq<Outcome>)
    ensures var p := Userbot.Removal(req.chatId, req.contractorId, script);
      GenericResponseOf(p.escaped).ok <==>
        |p.entries| == 2 && p.entries[0].outcome.Ok? && p.entries[1].outcome.Ok?
  {
    Userbot.RemovalBanThenUnban(req.chatId, req.contractorId, script);
  }

  method CreateGroup(tg: Userbot.Userbot, req: CreateGroupRequest) returns (r: CreateGroupResponse)
    modifies tg.client
    ensures var run := Userbot.Provision(SetupOf(req), old(tg.client.script));
      r == CreateGroupResponseOf(run.result) && tg.client.log == old(tg.client.log) + run.log
  {
    var res := tg.CreateAndSetupGroup(SetupOf(req));
    r := CreateGroupResponseOf(res);
  }

  method RemoveContractor(tg: Userbot.Userbot, req: RemoveContractorRequest) returns (r: GenericResponse)
    modifies tg.client
    ensures var p := Userbot.Removal(req.chatId, req.contractorId, old(tg.client.script));
      r == GenericResponseOf(p.escaped) && tg.client.log == old(tg.client.log) + p.entries
  {
    var raised := tg.RemoveContractor(req.chatId, req.contractorId);
    r := GenericResponseOf(raised);
  }

  method SendFallbackMessage(tg: Userbot.Userbot, req: SendFallbackMessageRequest) returns (r: GenericResponse)
    requires tg.storage.Valid()
    modifies tg.client, tg.storage
    ensures tg.storage.Valid()
    ensures var o := NextOutcome(old(tg.client.script));
      r == GenericResponseOf(if o.Ok? then None else Some(o.error)) &&
      tg.client.log == old(tg.client.log) + [Entry(SendMessage(req.contractorId, req.text), o)] &&
      (o.Ok? ==>
        tg.storage.rows == old(tg.storage.rows) +
          [FallbackStore.FallbackMessage(old(tg.storage.nextId), req.contractorId, req.groupId, o.reply.id)]) &&
      (o.Err? ==> tg.storage.rows == old(tg.storage.rows))
  {
    var c := tg.SendFallbackMessageAndTrack(req.contractorId, req.groupId, req.text);
    r := GenericResponseOf(RaisedBy(c));
  }
}

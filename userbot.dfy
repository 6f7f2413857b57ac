/** The userbot: provisioning of an order's group chat, removal of a contractor, the fallback
    message that is sent and tracked when the notify bot cannot reach a contractor, and the
    watcher that deletes that message once the contractor shows up in the group.

    Provisioning is specified by `Provision`, a reference run over a script of transport
    outcomes; `Userbot.CreateAndSetupGroup` performs the same calls one by one on a
    `Transport.Client` and is proved to produce exactly that run. */
module Userbot {
  import opened Common
  import opened Transport
  import FallbackStore

  /** `GroupResult`: `ok`, then the group id and invite link on success, or the error text. */
  datatype GroupResult = GroupResult(ok: bool, groupId: Option<int>, groupLink: Option<string>, error: Option<string>)

  /** The arguments of `create_and_setup_group`. */
  datatype GroupSetup = GroupSetup(
    title: string,
    description: Option<string>,
    iconBase64: Option<string>,
    curatorId: int,
    curatorLabel: string,
    contractorIds: seq<int>,
    bot2Username: Option<string>,
    bot3Username: Option<string>)

  /** `_delete_recent_messages` looks at this many of the newest messages. */
  const HistoryLimit: nat := 50

  /** Rights given to the two service bots: everything but promoting others, anonymously. */
  const BotRights := AdminRights(
    canManageChat := true, canDeleteMessages := true, canManageVideoChats := true,
    canRestrictMembers := true, canPromoteMembers := false, canChangeInfo := true,
    canInviteUsers := true, canPinMessages := true, isAnonymous := true)

  /** Rights given to the curator: everything, including promoting others, not anonymous. */
  const CuratorRights := AdminRights(
    canManageChat := true, canDeleteMessages := true, canManageVideoChats := true,
    canRestrictMembers := true, canPromoteMembers := true, canChangeInfo := true,
    canInviteUsers := true, canPinMessages := true, isAnonymous := false)

  function UserIds(ids: seq<int>): (m: seq<Member>)
    ensures |m| == |ids| && forall i :: 0 <= i < |ids| ==> m[i] == UserId(ids[i])
  {
    seq(|ids|, i requires 0 <= i < |ids| => UserId(ids[i]))
  }

  /** What an iterator over at most `n` items yields. */
  function Take(s: seq<int>, n: nat): (r: seq<int>)
    ensures |r| <= n && |r| <= |s| && r == s[..|r|]
    ensures |s| <= n ==> r == s
  {
    if |s| <= n then s else s[..n]
  }


  // ---------------------------------------------------------------------------------------
  // The reference run

  /** The calls one stretch of provisioning made, the script left, and the exception that
      escaped from it to the outer `except Exception` (None when the stretch completed). */
  datatype Phase = Phase(entries: seq<Entry>, rest: seq<Outcome>, escaped: Option<Error>)

  /** One step after the group exists, in the shape of its error handling in the code. */
  datatype Step =
    | Guarded(call: Call)                               // one call in its own `try/except Exception`
    | AddBot(bot: Member)                               // add with `except RPCError`, then a guarded promotion
    | PromoteCurator(curatorId: int, customTitle: string) // promotion and title in one `try/except Exception`
    | ClearRecent                                       // `_delete_recent_messages`, listing unguarded

  /** A call whose every failure is caught and logged. */
  function Soft(c: Call, script: seq<Outcome>): Phase {
    Phase([Entry(c, NextOutcome(script))], RestOf(script), None)
  }

  function RunStep(chat: int, step: Step, script: seq<Outcome>): Phase {
    match step
    case Guarded(c) => Soft(c, script)
    case AddBot(bot) =>
      var o := NextOutcome(script);
      var add := Entry(AddChatMembers(chat, [bot]), o);
      if o.Err? && !o.error.IsRpc() then Phase([add], RestOf(script), Some(o.error))
      else
        var p := Soft(PromoteChatMember(chat, bot, BotRights), RestOf(script));
        Phase([add] + p.entries, p.rest, None)
    case PromoteCurator(curatorId, customTitle) =>
      var o := NextOutcome(script);
      var promote := Entry(PromoteChatMember(chat, UserId(curatorId), CuratorRights), o);
      if o.Err? then Phase([promote], RestOf(script), None)
      else
        var p := Soft(SetAdministratorTitle(chat, curatorId, customTitle), RestOf(script));
        Phase([promote] + p.entries, p.rest, None)
    case ClearRecent =>
      var o := NextOutcome(script);
      var listing := Entry(GetChatHistory(chat, HistoryLimit), o);
      if o.Err? then Phase([listing], RestOf(script), Some(o.error))
      else
        var ids := Take(o.reply.messageIds, HistoryLimit);
        if ids == [] then Phase([listing], RestOf(script), None)
        else
          var p := Soft(DeleteMessages(chat, ids), RestOf(script));
          Phase([listing] + p.entries, p.rest, None)
  }

  /** Run the steps in order; an escaping exception skips every later step. */
  function RunSteps(chat: int, steps: seq<Step>, script: seq<Outcome>): Phase
    decreases |steps|
  {
    if steps == [] then Phase([], script, None)
    else
      var p := RunStep(chat, steps[0], script);
      if p.escaped.Some? then p
      else
        var q := RunSteps(chat, steps[1..], p.rest);
        Phase(p.entries + q.entries, q.rest, q.escaped)
  }

  function AddBots(bots: seq<Member>): (r: seq<Step>)
    ensures |r| == |bots| && forall i :: 0 <= i < |bots| ==> r[i] == AddBot(bots[i])
  {
    seq(|bots|, i requires 0 <= i < |bots| => AddBot(bots[i]))
  }

  function Bots(g: GroupSetup): seq<Member> {
    [Username(g.bot2Username), Username(g.bot3Username)]
  }

  function DescriptionSteps(g: GroupSetup, chat: int): seq<Step> {
    if Present(g.description) then [Guarded(SetChatDescription(chat, g.description.value))] else []
  }

  function PhotoSteps(g: GroupSetup, chat: int): seq<Step> {
    if Present(g.iconBase64) then [Guarded(SetChatPhoto(chat, g.iconBase64.value))] else []
  }

  function ContractorSteps(g: GroupSetup, chat: int): seq<Step> {
    if g.contractorIds != [] then [Guarded(AddChatMembers(chat, UserIds(g.contractorIds)))] else []
  }

  function FinalSteps(chat: int): seq<Step> {
    [ClearRecent, Guarded(OpenPreHistory(chat)), Guarded(ExportChatInviteLink(chat))]
  }

  /** The steps `create_and_setup_group` takes once the group `chat` exists. */
  function Plan(g: GroupSetup, chat: int): seq<Step> {
    DescriptionSteps(g, chat) + PhotoSteps(g, chat) + AddBots(Bots(g))
      + [PromoteCurator(g.curatorId, g.curatorLabel)] + ContractorSteps(g, chat) + FinalSteps(chat)
  }

  /** The invite link of a completed run: the reply of the export, which is its last call. */
  function LinkOf(entries: seq<Entry>): Option<string> {
    if entries != [] && entries[|entries| - 1].outcome.Ok? then Some(entries[|entries| - 1].outcome.reply.link)
    else None
  }

  /** The result of the outer `except Exception as e`. */
  function Failed(e: Error): GroupResult {
    GroupResult(false, None, None, Some(e.message))
  }

  datatype ProvisionRun = ProvisionRun(result: GroupResult, log: seq<Entry>, rest: seq<Outcome>)

  function CreateCall(g: GroupSetup): Call {
    CreateGroup(g.title, [UserId(g.curatorId)])
  }

  /** `create_and_setup_group` against a script of outcomes: its result, its calls, the script
      left. The group is created with the curator as its one initial member; a failure there
      runs nothing else. Success carries the created chat's id and no error; failure carries the
      error text and no id. */
  function Provision(g: GroupSetup, script: seq<Outcome>): (run: ProvisionRun)
    ensures |run.log| >= 1 && run.log[0] == Entry(CreateCall(g), NextOutcome(script))
    ensures run.result.ok ==>
      run.log[0].outcome.Ok? && run.result.groupId == Some(run.log[0].outcome.reply.id) && run.result.error.None?
    ensures !run.result.ok ==> run.result.groupId.None? && run.result.groupLink.None? && run.result.error.Some?
    ensures run.log[0].outcome.Err? ==>
      run.log == [run.log[0]] && run.result == Failed(run.log[0].outcome.error)
  {
    var o := NextOutcome(script);
    var first := Entry(CreateCall(g), o);
    if o.Err? then ProvisionRun(Failed(o.error), [first], RestOf(script))
    else
      var chat := o.reply.id;
      var p := RunSteps(chat, Plan(g, chat), RestOf(script));
      if p.escaped.Some? then ProvisionRun(Failed(p.escaped.value), [first] + p.entries, p.rest)
      else ProvisionRun(GroupResult(true, Some(chat), LinkOf(p.entries), None), [first] + p.entries, p.rest)
  }

  // ---------------------------------------------------------------------------------------
  // Which failures are hard

  predicate BotAdd(e: Entry) {
    e.call.AddChatMembers? && |e.call.members| == 1 && e.call.members[0].Username?
  }

  predicate BotPromote(e: Entry) {
    e.call.PromoteChatMember? && e.call.member.Username?
  }

  predicate CuratorPromote(e: Entry) {
    e.call.PromoteChatMember? && e.call.member.UserId?
  }

  /** A failure that aborts provisioning: creating the group, adding a service bot with an
      error that is not an `RPCError`, or listing the chat history. */
  predicate HardFailure(e: Entry) {
    e.outcome.Err? &&
    (e.call.CreateGroup? || (BotAdd(e) && !e.outcome.error.IsRpc()) || e.call.GetChatHistory?)
  }

  predicate NoHardFailure(entries: seq<Entry>) {
    forall i :: 0 <= i < |entries| ==> !HardFailure(entries[i])
  }

  /** A stretch escapes exactly when one of its calls failed hard, that call is its last, and
      the escaping error is that call's error. */
  predicate EscapesOnHardFailure(p: Phase) {
    (p.escaped.None? <==> NoHardFailure(p.entries)) &&
    (p.escaped.Some? ==>
      p.entries != [] &&
      HardFailure(p.entries[|p.entries| - 1]) &&
      p.entries[|p.entries| - 1].outcome.error == p.escaped.value)
  }

  /** The position of each kind of call in the fixed step order of provisioning. */
  function StepRank(c: Call): nat {
    match c
    case CreateGroup(_, _) => 0
    case SetChatDescription(_, _) => 1
    case SetChatPhoto(_, _) => 2
    case AddChatMembers(_, ms) => if |ms| == 1 && ms[0].Username? then 3 else 6
    case PromoteChatMember(_, m, _) => if m.Username? then 3 else 4
    case SetAdministratorTitle(_, _, _) => 5
    case GetChatHistory(_, _) => 7
    case DeleteMessages(_, _) => 8
    case OpenPreHistory(_) => 9
    case ExportChatInviteLink(_) => 10
    case _ => 11
  }

  predicate OnChat(e: Entry, chat: int) {
    match e.call
    case SetChatDescription(c, _) => c == chat
    case SetChatPhoto(c, _) => c == chat
    case AddChatMembers(c, _) => c == chat
    case PromoteChatMember(c, _, _) => c == chat
    case SetAdministratorTitle(c, _, _) => c == chat
    case GetChatHistory(c, _) => c == chat
    case DeleteMessages(c, _) => c == chat
    case OpenPreHistory(c) => c == chat
    case ExportChatInviteLink(c) => c == chat
    case _ => false
  }

  /** A step that the plan may contain: guarded calls are the soft kinds, on the new chat. */
  predicate StepOk(chat: int, step: Step) {
    match step
    case Guarded(c) =>
      OnChat(Entry(c, Err(OtherError(""))), chat) &&
      (StepRank(c) == 1 || StepRank(c) == 2 || StepRank(c) == 6 || StepRank(c) == 9 || StepRank(c) == 10)
    case AddBot(bot) => bot.Username?
    case _ => true
  }

  predicate StepsOk(chat: int, steps: seq<Step>) {
    forall k :: 0 <= k < |steps| ==> StepOk(chat, steps[k])
  }

  /** The lowest and highest rank of the calls a step makes. */
  function Lo(step: Step): nat {
    match step
    case Guarded(c) => StepRank(c)
    case AddBot(_) => 3
    case PromoteCurator(_, _) => 4
    case ClearRecent => 7
  }

  function Hi(step: Step): nat {
    match step
    case Guarded(c) => StepRank(c)
    case AddBot(_) => 3
    case PromoteCurator(_, _) => 5
    case ClearRecent => 8
  }

  predicate StepsSorted(steps: seq<Step>) {
    forall k :: 0 < k < |steps| ==> Hi(steps[k - 1]) <= Lo(steps[k])
  }

  /** A step that can let an exception escape. */
  predicate Escapable(step: Step) {
    step.AddBot? || step.ClearRecent?
  }

  lemma PlanOk(g: GroupSetup, chat: int)
    ensures StepsOk(chat, Plan(g, chat)) && StepsSorted(Plan(g, chat))
  {
    var d, ph, b, c, k, f := DescriptionSteps(g, chat), PhotoSteps(g, chat), AddBots(Bots(g)),
      [PromoteCurator(g.curatorId, g.curatorLabel)], ContractorSteps(g, chat), FinalSteps(chat);
    var plan := Plan(g, chat);
    assert plan == d + ph + b + c + k + f;
    assert |b| == 2 && b[0] == AddBot(Username(g.bot2Username)) && b[1] == AddBot(Username(g.bot3Username));
    forall i | 0 <= i < |plan| ensures StepOk(chat, plan[i]) && (0 < i ==> Hi(plan[i - 1]) <= Lo(plan[i])) {
      if i < |d| {
        assert plan[i] == d[i];
      } else if i < |d| + |ph| {
        assert plan[i] == ph[i - |d|];
      } else if i < |d| + |ph| + 2 {
        assert plan[i] == b[i - |d| - |ph|];
      } else if i == |d| + |ph| + 2 {
        assert plan[i] == c[0];
      } else if i < |d| + |ph| + 3 + |k| {
        assert plan[i] == k[0];
      } else {
        assert plan[i] == f[i - |d| - |ph| - 3 - |k|];
      }
      if 0 < i {
        if i - 1 < |d| {
          assert plan[i - 1] == d[i - 1];
        } else if i - 1 < |d| + |ph| {
          assert plan[i - 1] == ph[i - 1 - |d|];
        } else if i - 1 < |d| + |ph| + 2 {
          assert plan[i - 1] == b[i - 1 - |d| - |ph|];
        } else if i - 1 == |d| + |ph| + 2 {
          assert plan[i - 1] == c[0];
        } else if i - 1 < |d| + |ph| + 3 + |k| {
          assert plan[i - 1] == k[0];
        } else {
          assert plan[i - 1] == f[i - 1 - |d| - |ph| - 3 - |k|];
        }
      }
    }
  }

  // ---------------------------------------------------------------------------------------
  // Escapes

  lemma NoHardFailureConcat(a: seq<Entry>, b: seq<Entry>)
    ensures NoHardFailure(a + b) <==> NoHardFailure(a) && NoHardFailure(b)
  {
    if NoHardFailure(a) && NoHardFailure(b) {
      forall i | 0 <= i < |a + b| ensures !HardFailure((a + b)[i]) {
        if i >= |a| {
          assert (a + b)[i] == b[i - |a|];
        }
      }
    }
    if NoHardFailure(a + b) {
      forall i | 0 <= i < |a| ensures !HardFailure(a[i]) {
        assert (a + b)[i] == a[i];
      }
      forall i | 0 <= i < |b| ensures !HardFailure(b[i]) {
        assert (a + b)[|a| + i] == b[i];
      }
    }
  }

  lemma StepEscapes(chat: int, step: Step, script: seq<Outcome>)
    requires StepOk(chat, step)
    ensures EscapesOnHardFailure(RunStep(chat, step, script))
  {
    var p := RunStep(chat, step, script);
    var o := NextOutcome(script);
    match step
    case Guarded(c) =>
      assert !HardFailure(p.entries[0]);
    case AddBot(bot) =>
      if !(o.Err? && !o.error.IsRpc()) {
        assert !HardFailure(p.entries[0]) && !HardFailure(p.entries[1]);
      } else {
        assert BotAdd(p.entries[0]) && HardFailure(p.entries[0]);
      }
    case PromoteCurator(_, _) =>
      assert !HardFailure(p.entries[0]);
      if o.Ok? {
        assert !HardFailure(p.entries[1]);
      }
    case ClearRecent =>
      if o.Ok? {
        assert !HardFailure(p.entries[0]);
        if |p.entries| == 2 {
          assert !HardFailure(p.entries[1]);
        }
      } else {
        assert HardFailure(p.entries[0]);
      }
  }

  lemma {:induction false} RunStepsEscapes(chat: int, steps: seq<Step>, script: seq<Outcome>)
    requires StepsOk(chat, steps)
    ensures EscapesOnHardFailure(RunSteps(chat, steps, script))
    decreases |steps|
  {
    if steps != [] {
      var p := RunStep(chat, steps[0], script);
      StepEscapes(chat, steps[0], script);
      if p.escaped.None? {
        var q := RunSteps(chat, steps[1..], p.rest);
        StepsOkTail(chat, steps);
        RunStepsEscapes(chat, steps[1..], p.rest);
        NoHardFailureConcat(p.entries, q.entries);
        if q.escaped.Some? {
          assert (p.entries + q.entries)[|p.entries + q.entries| - 1] == q.entries[|q.entries| - 1];
        }
      }
    }
  }

  /** Provisioning succeeds exactly when no call failed hard: every failure of the description,
      photo, bot promotion, curator promotion or title, contractor add, deletion, history
      visibility or link export is absorbed. A failed run's error is the text of the failure
      that ended it, which is the last call made. */
  lemma ProvisionOkIffNoHardFailure(g: GroupSetup, script: seq<Outcome>)
    ensures var run := Provision(g, script);
      (run.result.ok <==> NoHardFailure(run.log)) &&
      (!run.result.ok ==>
        HardFailure(run.log[|run.log| - 1]) &&
        run.result.error == Some(run.log[|run.log| - 1].outcome.error.message))
  {
    var run := Provision(g, script);
    var o := NextOutcome(script);
    ProvisionShape(g, script);
    if o.Ok? {
      var chat := o.reply.id;
      var p := RunSteps(chat, Plan(g, chat), RestOf(script));
      PlanOk(g, chat);
      RunStepsEscapes(chat, Plan(g, chat), RestOf(script));
      PlanRunOkIff(run, p);
    } else {
      assert run.log[|run.log| - 1] == run.log[0];
    }
  }

  /** `ProvisionOkIffNoHardFailure` for a run whose plan ran as `p`. */
  lemma PlanRunOkIff(run: ProvisionRun, p: Phase)
    requires |run.log| >= 1 && run.log == [run.log[0]] + p.entries && !HardFailure(run.log[0])
    requires EscapesOnHardFailure(p)
    requires (run.result.ok <==> p.escaped.None?) && (p.escaped.Some? ==> run.result == Failed(p.escaped.value))
    ensures (run.result.ok <==> NoHardFailure(run.log)) &&
      (!run.result.ok ==>
        HardFailure(run.log[|run.log| - 1]) &&
        run.result.error == Some(run.log[|run.log| - 1].outcome.error.message))
  {
    PrefixedEscapes(run.log, run.log[0], p);
  }

  /** The shape of a run once the group exists: the creation, then the run of the plan; it
      succeeds exactly when the plan did not escape. */
  lemma ProvisionShape(g: GroupSetup, script: seq<Outcome>)
    ensures var run, o := Provision(g, script), NextOutcome(script);
      (o.Err? ==> run.log == [run.log[0]] && HardFailure(run.log[0]) && run.result == Failed(o.error)) &&
      (o.Ok? ==>
        var p := RunSteps(o.reply.id, Plan(g, o.reply.id), RestOf(script));
        run.log == [run.log[0]] + p.entries && !HardFailure(run.log[0]) && run.rest == p.rest &&
        (run.result.ok <==> p.escaped.None?) &&
        (p.escaped.Some? ==> run.result == Failed(p.escaped.value)) &&
        (p.escaped.None? ==> run.result.groupLink == LinkOf(p.entries)))
  {
  }

  /** A stretch run after a call that did not fail hard escapes exactly when the whole log has
      a hard failure, and then that failure is the log's last call. */
  lemma PrefixedEscapes(log: seq<Entry>, first: Entry, p: Phase)
    requires log == [first] + p.entries && !HardFailure(first) && EscapesOnHardFailure(p)
    ensures (p.escaped.None? <==> NoHardFailure(log)) &&
      (p.escaped.Some? ==> HardFailure(log[|log| - 1]) && log[|log| - 1].outcome.error == p.escaped.value)
  {
    NoHardFailureConcat([first], p.entries);
    assert NoHardFailure([first]);
    if p.escaped.Some? {
      assert log[|log| - 1] == p.entries[|p.entries| - 1];
    }
  }

  // ---------------------------------------------------------------------------------------
  // The order of the calls

  predicate HistoryWithIds(e: Entry) {
    e.call.GetChatHistory? && e.outcome.Ok? && Take(e.outcome.reply.messageIds, e.call.limit) != []
  }

  /** What one call of a provisioning run says about the call after it. */
  predicate Follows(prev: Entry, next: Entry) {
    && StepRank(prev.call) <= StepRank(next.call)
    // a bot is promoted right after it was added, unless the add raised a non-RPC error
    && (BotAdd(prev) && !HardFailure(prev) <==> BotPromote(next))
    && (BotPromote(next) ==> next.call.member == prev.call.members[0] && next.call.rights == BotRights)
    // the curator's title is set right after, and only after, a successful promotion
    && (CuratorPromote(prev) && prev.outcome.Ok? <==> next.call.SetAdministratorTitle?)
    && (next.call.SetAdministratorTitle? ==>
          next.call.user == prev.call.member.id && next.call.chat == prev.call.chat)
    // recent messages are deleted right after, and only after, a listing that yielded some
    && (HistoryWithIds(prev) <==> next.call.DeleteMessages?)
    && (next.call.DeleteMessages? ==>
          next.call.chat == prev.call.chat &&
          next.call.messageIds == Take(prev.outcome.reply.messageIds, prev.call.limit))
  }

  /** A call that may start a stretch: it needs no particular predecessor. */
  predicate Opens(e: Entry) {
    !BotPromote(e) && !e.call.SetAdministratorTitle? && !e.call.DeleteMessages?
  }

  /** A call that may end a stretch: it asks for no particular successor. */
  predicate Closes(e: Entry) {
    !(BotAdd(e) && !HardFailure(e)) && !(CuratorPromote(e) && e.outcome.Ok?) && !HistoryWithIds(e)
  }

  /** Every adjacent pair is in order, and the ends need nothing outside the stretch. */
  predicate WellFormed(es: seq<Entry>) {
    (forall i :: 0 < i < |es| ==> Follows(es[i - 1], es[i])) &&
    (es != [] ==> Opens(es[0]) && Closes(es[|es| - 1]))
  }

  predicate InBand(es: seq<Entry>, lo: nat, hi: nat) {
    forall i :: 0 <= i < |es| ==> lo <= StepRank(es[i].call) <= hi
  }

  lemma Boundary(prev: Entry, next: Entry)
    requires Closes(prev) && Opens(next) && StepRank(prev.call) <= StepRank(next.call)
    ensures Follows(prev, next)
  {
  }

  lemma JoinWellFormed(a: seq<Entry>, b: seq<Entry>)
    requires WellFormed(a) && WellFormed(b)
    requires a != [] && b != [] ==> StepRank(a[|a| - 1].call) <= StepRank(b[0].call)
    ensures WellFormed(a + b)
  {
    var ab := a + b;
    forall i | 0 < i < |ab| ensures Follows(ab[i - 1], ab[i]) {
      if i < |a| {
        assert ab[i - 1] == a[i - 1] && ab[i] == a[i];
      } else if i == |a| {
        assert ab[i - 1] == a[|a| - 1] && ab[i] == b[0];
        Boundary(a[|a| - 1], b[0]);
      } else {
        assert ab[i - 1] == b[i - 1 - |a|] && ab[i] == b[i - |a|];
      }
    }
    if ab != [] {
      if a == [] {
        assert ab == b;
      } else if b == [] {
        assert ab == a;
      } else {
        assert ab[0] == a[0] && ab[|ab| - 1] == b[|b| - 1];
      }
    }
  }

  lemma InBandConcat(a: seq<Entry>, b: seq<Entry>, lo: nat, hi: nat, mid: nat)
    requires InBand(a, lo, hi) && InBand(b, mid, 10) && lo <= mid && hi <= 10
    ensures InBand(a + b, lo, 10)
  {
    forall i | 0 <= i < |a + b| ensures lo <= StepRank((a + b)[i].call) <= 10 {
      if i < |a| {
        assert (a + b)[i] == a[i];
      } else {
        assert (a + b)[i] == b[i - |a|];
      }
    }
  }

  lemma StepWellFormed(chat: int, step: Step, script: seq<Outcome>)
    requires StepOk(chat, step)
    ensures var es := RunStep(chat, step, script).entries;
      es != [] && WellFormed(es) && InBand(es, Lo(step), Hi(step))
  {
    match step
    case Guarded(c) =>
    case AddBot(bot) => AddBotWellFormed(chat, bot, script);
    case PromoteCurator(id, title) => PromoteCuratorWellFormed(chat, id, title, script);
    case ClearRecent => ClearRecentWellFormed(chat, script);
  }

  lemma AddBotWellFormed(chat: int, bot: Member, script: seq<Outcome>)
    requires bot.Username?
    ensures var es := RunStep(chat, AddBot(bot), script).entries;
      es != [] && WellFormed(es) && InBand(es, 3, 3)
  {
    var es := RunStep(chat, AddBot(bot), script).entries;
    if |es| == 2 {
      assert Follows(es[0], es[1]);
    }
  }

  lemma PromoteCuratorWellFormed(chat: int, curatorId: int, title: string, script: seq<Outcome>)
    ensures var es := RunStep(chat, PromoteCurator(curatorId, title), script).entries;
      es != [] && WellFormed(es) && InBand(es, 4, 5)
  {
    var es := RunStep(chat, PromoteCurator(curatorId, title), script).entries;
    if |es| == 2 {
      assert Follows(es[0], es[1]);
    }
  }

  lemma ClearRecentWellFormed(chat: int, script: seq<Outcome>)
    ensures var es := RunStep(chat, ClearRecent, script).entries;
      es != [] && WellFormed(es) && InBand(es, 7, 8)
  {
    var es := RunStep(chat, ClearRecent, script).entries;
    if |es| == 2 {
      assert Follows(es[0], es[1]);
    }
  }

  lemma StepsOkTail(chat: int, steps: seq<Step>)
    requires steps != [] && StepsOk(chat, steps)
    ensures StepOk(chat, steps[0]) && StepsOk(chat, steps[1..])
  {
    forall k | 0 <= k < |steps[1..]| ensures StepOk(chat, steps[1..][k]) {
      assert steps[1..][k] == steps[k + 1];
    }
  }

  lemma StepsTail(chat: int, steps: seq<Step>)
    requires steps != [] && StepsOk(chat, steps) && StepsSorted(steps)
    ensures StepsOk(chat, steps[1..]) && StepsSorted(steps[1..])
  {
    forall k | 0 <= k < |steps[1..]| ensures StepOk(chat, steps[1..][k]) {
      assert steps[1..][k] == steps[k + 1];
    }
    forall k | 0 < k < |steps[1..]| ensures Hi(steps[1..][k - 1]) <= Lo(steps[1..][k]) {
      assert steps[1..][k - 1] == steps[k] && steps[1..][k] == steps[k + 1];
    }
  }

  lemma {:induction false} RunStepsWellFormed(chat: int, steps: seq<Step>, script: seq<Outcome>)
    requires StepsOk(chat, steps) && StepsSorted(steps)
    ensures var es := RunSteps(chat, steps, script).entries;
      WellFormed(es) && (steps != [] ==> es != [] && InBand(es, Lo(steps[0]), 10))
    decreases |steps|
  {
    if steps != [] {
      var p := RunStep(chat, steps[0], script);
      StepWellFormed(chat, steps[0], script);
      assert Hi(steps[0]) <= 10 by {
        assert StepOk(chat, steps[0]);
      }
      if p.escaped.None? {
        var q := RunSteps(chat, steps[1..], p.rest);
        StepsTail(chat, steps);
        RunStepsWellFormed(chat, steps[1..], p.rest);
        if steps[1..] != [] {
          assert Hi(steps[0]) <= Lo(steps[1..][0]);
          assert StepRank(p.entries[|p.entries| - 1].call) <= StepRank(q.entries[0].call);
        } else {
          assert q.entries == [];
        }
        JoinWellFormed(p.entries, q.entries);
        if steps[1..] != [] {
          assert Lo(steps[0]) <= Lo(steps[1..][0]);
          InBandConcat(p.entries, q.entries, Lo(steps[0]), Hi(steps[0]), Lo(steps[1..][0]));
        } else {
          assert p.entries + q.entries == p.entries;
        }
      }
    }
  }

  /** The log of any provisioning run, as a whole, is well formed. */
  lemma ProvisionWellFormed(g: GroupSetup, script: seq<Outcome>)
    ensures WellFormed(Provision(g, script).log)
  {
    var run := Provision(g, script);
    var o := NextOutcome(script);
    if o.Ok? {
      var chat := o.reply.id;
      var p := RunSteps(chat, Plan(g, chat), RestOf(script));
      PlanOk(g, chat);
      RunStepsWellFormed(chat, Plan(g, chat), RestOf(script));
      assert run.log == [run.log[0]] + p.entries;
      assert WellFormed([run.log[0]]);
      JoinWellFormed([run.log[0]], p.entries);
    }
  }

  lemma {:induction false} AdjacentRanksSorted(es: seq<Entry>, i: nat, j: nat)
    requires forall k :: 0 < k < |es| ==> StepRank(es[k - 1].call) <= StepRank(es[k].call)
    requires i <= j < |es|
    ensures StepRank(es[i].call) <= StepRank(es[j].call)
    decreases j - i
  {
    if i < j {
      AdjacentRanksSorted(es, i + 1, j);
    }
  }

  /** The steps run in the fixed order create, description, photo, bots, curator promotion,
      curator title, contractors, history listing, deletion, history visibility, invite link. */
  lemma ProvisionStepsInOrder(g: GroupSetup, script: seq<Outcome>)
    ensures var log := Provision(g, script).log;
      forall i, j :: 0 <= i <= j < |log| ==> StepRank(log[i].call) <= StepRank(log[j].call)
  {
    var log := Provision(g, script).log;
    ProvisionWellFormed(g, script);
    forall i, j | 0 <= i <= j < |log| ensures StepRank(log[i].call) <= StepRank(log[j].call) {
      AdjacentRanksSorted(log, i, j);
    }
  }

  /** The curator's title is set only right after the curator was promoted successfully, and a
      successful promotion is always followed by setting the title. */
  lemma CuratorTitleOnlyAfterPromotion(g: GroupSetup, script: seq<Outcome>)
    ensures var log := Provision(g, script).log;
      (forall i :: 0 <= i < |log| && log[i].call.SetAdministratorTitle? ==>
        0 < i && CuratorPromote(log[i - 1]) && log[i - 1].outcome.Ok? &&
        log[i].call.user == log[i - 1].call.member.id) &&
      (forall i :: 0 <= i < |log| && CuratorPromote(log[i]) && log[i].outcome.Ok? ==>
        i + 1 < |log| && log[i + 1].call.SetAdministratorTitle?)
  {
    var log := Provision(g, script).log;
    ProvisionWellFormed(g, script);
    forall i | 0 <= i < |log| && log[i].call.SetAdministratorTitle?
      ensures 0 < i && CuratorPromote(log[i - 1]) && log[i - 1].outcome.Ok? && log[i].call.user == log[i - 1].call.member.id
    {
      assert i != 0;
      assert Follows(log[i - 1], log[i]);
    }
    forall i | 0 <= i < |log| && CuratorPromote(log[i]) && log[i].outcome.Ok?
      ensures i + 1 < |log| && log[i + 1].call.SetAdministratorTitle?
    {
      assert i != |log| - 1;
      assert Follows(log[i], log[i + 1]);
    }
  }

  /** Each service bot is promoted, with the bot rights, right after it is added, also when the
      add raised an `RPCError`; only an add that raised another error is not followed by a
      promotion. */
  lemma BotPromotedAfterEveryCaughtAdd(g: GroupSetup, script: seq<Outcome>)
    ensures var log := Provision(g, script).log;
      forall i :: 0 <= i < |log| && BotAdd(log[i]) && !HardFailure(log[i]) ==>
        i + 1 < |log| &&
        log[i + 1].call == PromoteChatMember(log[i].call.chat, log[i].call.members[0], BotRights)
  {
    var log := Provision(g, script).log;
    ProvisionWellFormed(g, script);
    OnCreatedChat(g, script);
    forall i | 0 <= i < |log| && BotAdd(log[i]) && !HardFailure(log[i])
      ensures i + 1 < |log| && log[i + 1].call == PromoteChatMember(log[i].call.chat, log[i].call.members[0], BotRights)
    {
      assert i != |log| - 1;
      assert Follows(log[i], log[i + 1]);
      assert OnChat(log[i], log[0].outcome.reply.id) && OnChat(log[i + 1], log[0].outcome.reply.id);
    }
  }

  /** No bot is promoted without having been added just before. */
  lemma BotPromotedOnlyAfterItsAdd(g: GroupSetup, script: seq<Outcome>)
    ensures var log := Provision(g, script).log;
      forall i :: 0 <= i < |log| && BotPromote(log[i]) ==>
        0 < i && BotAdd(log[i - 1]) && !HardFailure(log[i - 1]) && log[i - 1].call.members[0] == log[i].call.member
  {
    var log := Provision(g, script).log;
    ProvisionWellFormed(g, script);
    forall i | 0 <= i < |log| && BotPromote(log[i])
      ensures 0 < i && BotAdd(log[i - 1]) && !HardFailure(log[i - 1]) && log[i - 1].call.members[0] == log[i].call.member
    {
      assert i != 0;
      assert Follows(log[i - 1], log[i]);
    }
  }

  /** Recent messages are deleted exactly when the history listing right before yielded some,
      and the deletion is of those (at most 50) ids, in the same chat. */
  lemma DeleteOnlyListedMessages(g: GroupSetup, script: seq<Outcome>)
    ensures var log := Provision(g, script).log;
      (forall i :: 0 <= i < |log| && log[i].call.DeleteMessages? ==>
        0 < i && HistoryWithIds(log[i - 1]) &&
        log[i].call.chat == log[i - 1].call.chat &&
        log[i].call.messageIds == Take(log[i - 1].outcome.reply.messageIds, log[i - 1].call.limit)) &&
      (forall i :: 0 <= i < |log| && HistoryWithIds(log[i]) ==>
        i + 1 < |log| && log[i + 1].call.DeleteMessages?)
  {
    var log := Provision(g, script).log;
    ProvisionWellFormed(g, script);
    forall i | 0 <= i < |log| && log[i].call.DeleteMessages?
      ensures 0 < i && HistoryWithIds(log[i - 1])
    {
      assert i != 0;
      assert Follows(log[i - 1], log[i]);
    }
    forall i | 0 <= i < |log| && HistoryWithIds(log[i])
      ensures i + 1 < |log| && log[i + 1].call.DeleteMessages?
    {
      assert i != |log| - 1;
      assert Follows(log[i], log[i + 1]);
    }
  }

  // ---------------------------------------------------------------------------------------
  // What the calls are about

  predicate AllOnChat(es: seq<Entry>, chat: int) {
    forall i :: 0 <= i < |es| ==> OnChat(es[i], chat)
  }

  /** Every history listing asks for `HistoryLimit` messages. */
  predicate ListsAtLimit(es: seq<Entry>) {
    forall i :: 0 <= i < |es| && es[i].call.GetChatHistory? ==> es[i].call.limit == HistoryLimit
  }

  lemma {:induction false} RunStepsOnChat(chat: int, steps: seq<Step>, script: seq<Outcome>)
    requires StepsOk(chat, steps)
    ensures var es := RunSteps(chat, steps, script).entries;
      AllOnChat(es, chat) && ListsAtLimit(es)
    decreases |steps|
  {
    if steps != [] {
      var p := RunStep(chat, steps[0], script);
      StepOnChat(chat, steps[0], script);
      if p.escaped.None? {
        var q := RunSteps(chat, steps[1..], p.rest);
        StepsOkTail(chat, steps);
        RunStepsOnChat(chat, steps[1..], p.rest);
        OnChatConcat(p.entries, q.entries, chat);
      }
    }
  }

  lemma StepOnChat(chat: int, step: Step, script: seq<Outcome>)
    requires StepOk(chat, step)
    ensures var es := RunStep(chat, step, script).entries;
      AllOnChat(es, chat) && ListsAtLimit(es)
  {
    match step
    case Guarded(c) =>
    case AddBot(bot) => AddBotOnChat(chat, bot, script);
    case PromoteCurator(id, title) => PromoteCuratorOnChat(chat, id, title, script);
    case ClearRecent => ClearRecentOnChat(chat, script);
  }

  lemma AddBotOnChat(chat: int, bot: Member, script: seq<Outcome>)
    ensures var es := RunStep(chat, AddBot(bot), script).entries;
      AllOnChat(es, chat) && ListsAtLimit(es)
  {
    var es := RunStep(chat, AddBot(bot), script).entries;
    assert |es| <= 2 && OnChat(es[0], chat);
    assert |es| == 2 ==> OnChat(es[1], chat);
  }

  lemma PromoteCuratorOnChat(chat: int, curatorId: int, title: string, script: seq<Outcome>)
    ensures var es := RunStep(chat, PromoteCurator(curatorId, title), script).entries;
      AllOnChat(es, chat) && ListsAtLimit(es)
  {
    var es := RunStep(chat, PromoteCurator(curatorId, title), script).entries;
    assert |es| <= 2 && OnChat(es[0], chat);
    assert |es| == 2 ==> OnChat(es[1], chat);
  }

  lemma ClearRecentOnChat(chat: int, script: seq<Outcome>)
    ensures var es := RunStep(chat, ClearRecent, script).entries;
      AllOnChat(es, chat) && ListsAtLimit(es)
  {
    var es := RunStep(chat, ClearRecent, script).entries;
    assert |es| <= 2 && OnChat(es[0], chat) && es[0].call.limit == HistoryLimit;
    assert |es| == 2 ==> OnChat(es[1], chat) && !es[1].call.GetChatHistory?;
  }

  lemma OnChatConcat(a: seq<Entry>, b: seq<Entry>, chat: int)
    requires AllOnChat(a, chat) && ListsAtLimit(a) && AllOnChat(b, chat) && ListsAtLimit(b)
    ensures AllOnChat(a + b, chat) && ListsAtLimit(a + b)
  {
    var es := a + b;
    forall i | 0 <= i < |es| ensures OnChat(es[i], chat) && (es[i].call.GetChatHistory? ==> es[i].call.limit == HistoryLimit) {
      if i < |a| {
        assert es[i] == a[i];
      } else {
        assert es[i] == b[i - |a|];
      }
    }
  }

  /** Every call after the creation is made on the created chat, and every history listing
      asks for at most `HistoryLimit` (50) messages. */
  lemma OnCreatedChat(g: GroupSetup, script: seq<Outcome>)
    ensures var log := Provision(g, script).log;
      (|log| > 1 ==> log[0].outcome.Ok?) &&
      (log[0].outcome.Ok? ==> AllOnChat(log[1..], log[0].outcome.reply.id)) &&
      ListsAtLimit(log)
  {
    var log := Provision(g, script).log;
    var o := NextOutcome(script);
    if o.Ok? {
      var chat := o.reply.id;
      PlanOk(g, chat);
      RunStepsOnChat(chat, Plan(g, chat), RestOf(script));
      assert log[1..] == RunSteps(chat, Plan(g, chat), RestOf(script)).entries;
      forall i | 0 <= i < |log| && log[i].call.GetChatHistory? ensures log[i].call.limit == HistoryLimit {
        assert i != 0;
        assert log[i] == log[1..][i - 1];
      }
    }
  }

  // ---------------------------------------------------------------------------------------
  // Which steps run

  /** The first call a step makes; it is made whenever the step is reached. */
  function FirstCall(chat: int, step: Step): Call {
    match step
    case Guarded(c) => c
    case AddBot(bot) => AddChatMembers(chat, [bot])
    case PromoteCurator(curatorId, _) => PromoteChatMember(chat, UserId(curatorId), CuratorRights)
    case ClearRecent => GetChatHistory(chat, HistoryLimit)
  }

  predicate NoRank(es: seq<Entry>, r: nat) {
    forall i :: 0 <= i < |es| ==> StepRank(es[i].call) != r
  }

  lemma {:induction false} RunStepsAvoid(chat: int, steps: seq<Step>, script: seq<Outcome>, r: nat)
    requires StepsOk(chat, steps)
    requires AvoidsRank(steps, r)
    ensures NoRank(RunSteps(chat, steps, script).entries, r)
    decreases |steps|
  {
    if steps != [] {
      var p := RunStep(chat, steps[0], script);
      StepWellFormed(chat, steps[0], script);
      if p.escaped.None? {
        var q := RunSteps(chat, steps[1..], p.rest);
        StepsOkTail(chat, steps);
        forall k | 0 <= k < |steps[1..]| ensures !(Lo(steps[1..][k]) <= r <= Hi(steps[1..][k])) {
          assert steps[1..][k] == steps[k + 1];
        }
        RunStepsAvoid(chat, steps[1..], p.rest, r);
        var es := p.entries + q.entries;
        forall i | 0 <= i < |es| ensures StepRank(es[i].call) != r {
          if i < |p.entries| {
            assert es[i] == p.entries[i];
          } else {
            assert es[i] == q.entries[i - |p.entries|];
          }
        }
      }
    }
  }

  /** A step is reached, and makes its first call, when the run completes or when no step
      before it can let an exception escape. */
  lemma {:induction false} RunStepsCover(chat: int, steps: seq<Step>, script: seq<Outcome>, k: nat)
    requires StepsOk(chat, steps) && k < |steps|
    requires RunSteps(chat, steps, script).escaped.None? || forall j :: 0 <= j < k ==> !Escapable(steps[j])
    ensures var es := RunSteps(chat, steps, script).entries;
      exists i :: 0 <= i < |es| && es[i].call == FirstCall(chat, steps[k])
    decreases k
  {
    var r := RunSteps(chat, steps, script);
    var p := RunStep(chat, steps[0], script);
    StepFirstCall(chat, steps[0], script);
    if p.escaped.Some? {
      assert r == p;
    }
    if k == 0 {
      if p.escaped.None? {
        assert r.entries == p.entries + RunSteps(chat, steps[1..], p.rest).entries;
      }
      assert r.entries[0] == p.entries[0];
    } else {
      assert p.escaped.None?;
      var q := RunSteps(chat, steps[1..], p.rest);
      assert r == Phase(p.entries + q.entries, q.rest, q.escaped);
      StepsOkTail(chat, steps);
      if r.escaped.Some? {
        forall j | 0 <= j < k - 1 ensures !Escapable(steps[1..][j]) {
          assert steps[1..][j] == steps[j + 1];
        }
      }
      RunStepsCover(chat, steps[1..], p.rest, k - 1);
      assert steps[1..][k - 1] == steps[k];
      CoverShift(p.entries, q.entries, FirstCall(chat, steps[k]));
    }
  }

  lemma CoverShift(a: seq<Entry>, b: seq<Entry>, c: Call)
    requires exists i :: 0 <= i < |b| && b[i].call == c
    ensures exists i :: |a| <= i < |a + b| && (a + b)[i].call == c
  {
    var i :| 0 <= i < |b| && b[i].call == c;
    assert (a + b)[|a| + i] == b[i];
  }

  /** A step's first call is `FirstCall`, and only the escapable steps can escape. */
  lemma StepFirstCall(chat: int, step: Step, script: seq<Outcome>)
    ensures var p := RunStep(chat, step, script);
      p.entries != [] && p.entries[0].call == FirstCall(chat, step) &&
      (!Escapable(step) ==> p.escaped.None?)
  {
  }

  lemma PlanStarts(g: GroupSetup, chat: int)
    ensures var plan := Plan(g, chat);
      (Present(g.description) ==> plan[0] == Guarded(SetChatDescription(chat, g.description.value))) &&
      (Present(g.iconBase64) ==>
        var k := if Present(g.description) then 1 else 0;
        k < |plan| && plan[k] == Guarded(SetChatPhoto(chat, g.iconBase64.value)) &&
        forall j :: 0 <= j < k ==> !Escapable(plan[j]))
  {
    var d, ph, rest := DescriptionSteps(g, chat), PhotoSteps(g, chat),
      AddBots(Bots(g)) + [PromoteCurator(g.curatorId, g.curatorLabel)] + ContractorSteps(g, chat) + FinalSteps(chat);
    var plan := Plan(g, chat);
    assert plan == d + ph + rest;
    if Present(g.iconBase64) {
      assert plan[|d|] == ph[0];
      if Present(g.description) {
        assert plan[0] == d[0];
      }
    }
  }

  /** Where the service bots, the curator and the contractors sit in the plan. */
  lemma PlanMembers(g: GroupSetup, chat: int)
    ensures var plan, n := Plan(g, chat), |DescriptionSteps(g, chat) + PhotoSteps(g, chat)|;
      n + 3 <= |plan| &&
      plan[n] == AddBot(Username(g.bot2Username)) && plan[n + 1] == AddBot(Username(g.bot3Username)) &&
      plan[n + 2] == PromoteCurator(g.curatorId, g.curatorLabel) &&
      (g.contractorIds != [] ==> n + 3 < |plan| && plan[n + 3] == Guarded(AddChatMembers(chat, UserIds(g.contractorIds))))
  {
    var pre := DescriptionSteps(g, chat) + PhotoSteps(g, chat);
    var b, c, k, f := AddBots(Bots(g)), [PromoteCurator(g.curatorId, g.curatorLabel)], ContractorSteps(g, chat), FinalSteps(chat);
    assert Plan(g, chat) == pre + (b + c + k + f);
    assert b == [AddBot(Username(g.bot2Username)), AddBot(Username(g.bot3Username))];
    assert (b + c + k + f)[0] == b[0] && (b + c + k + f)[1] == b[1] && (b + c + k + f)[2] == c[0];
    if k != [] {
      assert (b + c + k + f)[3] == k[0];
    }
  }

  /** No step of `steps` makes a call of rank `r`. */
  predicate AvoidsRank(steps: seq<Step>, r: nat) {
    forall k :: 0 <= k < |steps| ==> !(Lo(steps[k]) <= r <= Hi(steps[k]))
  }

  lemma AvoidsRankConcat(a: seq<Step>, b: seq<Step>, r: nat)
    requires AvoidsRank(a, r) && AvoidsRank(b, r)
    ensures AvoidsRank(a + b, r)
  {
    forall k | 0 <= k < |a + b| ensures !(Lo((a + b)[k]) <= r <= Hi((a + b)[k])) {
      if k < |a| {
        assert (a + b)[k] == a[k];
      } else {
        assert (a + b)[k] == b[k - |a|];
      }
    }
  }

  /** The ranks that an absent optional step would occupy are occupied by no step of the plan. */
  lemma PlanAvoids(g: GroupSetup, chat: int, r: nat)
    requires (r == 1 && !Present(g.description)) || (r == 2 && !Present(g.iconBase64)) ||
             (r == 6 && g.contractorIds == [])
    ensures AvoidsRank(Plan(g, chat), r)
  {
    var d, ph, b, c, k, f := DescriptionSteps(g, chat), PhotoSteps(g, chat), AddBots(Bots(g)),
      [PromoteCurator(g.curatorId, g.curatorLabel)], ContractorSteps(g, chat), FinalSteps(chat);
    assert Plan(g, chat) == d + ph + b + c + k + f;
    assert b == [AddBot(Username(g.bot2Username)), AddBot(Username(g.bot3Username))];
    assert AvoidsRank(b, r) && AvoidsRank(c, r) && AvoidsRank(f, r);
    assert AvoidsRank(d, r) by {
      if d != [] {
        assert r != 1 && Lo(d[0]) == Hi(d[0]) == 1;
      }
    }
    assert AvoidsRank(ph, r) by {
      if ph != [] {
        assert r != 2 && Lo(ph[0]) == Hi(ph[0]) == 2;
      }
    }
    assert AvoidsRank(k, r) by {
      if k != [] {
        var ids := UserIds(g.contractorIds);
        assert r != 6 && ids[0] == UserId(g.contractorIds[0]);
        assert Lo(k[0]) == Hi(k[0]) == 6;
      }
    }
    AvoidsRankConcat(d, ph, r);
    AvoidsRankConcat(d + ph, b, r);
    AvoidsRankConcat(d + ph + b, c, r);
    AvoidsRankConcat(d + ph + b + c, k, r);
    AvoidsRankConcat(d + ph + b + c + k, f, r);
  }

  /** The description is set only when it is non-empty, and then as the first call after the
      creation. */
  lemma DescriptionFollowsInput(g: GroupSetup, script: seq<Outcome>)
    ensures var log := Provision(g, script).log;
      (log[0].outcome.Ok? && Present(g.description) ==>
        |log| > 1 && log[1].call == SetChatDescription(log[0].outcome.reply.id, g.description.value)) &&
      (!Present(g.description) ==> NoRank(log, 1))
  {
    var log := Provision(g, script).log;
    var o := NextOutcome(script);
    if o.Ok? {
      var chat := o.reply.id;
      var plan := Plan(g, chat);
      var p := RunSteps(chat, plan, RestOf(script));
      PlanOk(g, chat);
      assert log == [log[0]] + p.entries;
      if Present(g.description) {
        PlanStarts(g, chat);
        RunStepsCover(chat, plan, RestOf(script), 0);
        var i :| 0 <= i < |p.entries| && p.entries[i].call == FirstCall(chat, plan[0]);
        assert log[1] == p.entries[0];
        assert p.entries[0].call == FirstCall(chat, plan[0]);
      } else {
        PlanAvoids(g, chat, 1);
        RunStepsAvoid(chat, plan, RestOf(script), 1);
      }
    }
  }

  /** The photo is set only when an icon is given, and then whatever happens later. */
  lemma PhotoFollowsInput(g: GroupSetup, script: seq<Outcome>)
    ensures var log := Provision(g, script).log;
      (log[0].outcome.Ok? && Present(g.iconBase64) ==>
        exists i :: 0 < i < |log| && log[i].call == SetChatPhoto(log[0].outcome.reply.id, g.iconBase64.value)) &&
      (!Present(g.iconBase64) ==> NoRank(log, 2))
  {
    var log := Provision(g, script).log;
    var o := NextOutcome(script);
    if o.Ok? {
      var chat := o.reply.id;
      var plan := Plan(g, chat);
      var p := RunSteps(chat, plan, RestOf(script));
      PlanOk(g, chat);
      assert log == [log[0]] + p.entries;
      if Present(g.iconBase64) {
        PlanStarts(g, chat);
        var k := if Present(g.description) then 1 else 0;
        RunStepsCover(chat, plan, RestOf(script), k);
        CoverShift([log[0]], p.entries, FirstCall(chat, plan[k]));
      } else {
        PlanAvoids(g, chat, 2);
        RunStepsAvoid(chat, plan, RestOf(script), 2);
      }
    }
  }

  /** A successful run has made the first call of every step of the plan. */
  lemma OkRunReachedEveryStep(g: GroupSetup, script: seq<Outcome>)
    ensures var run := Provision(g, script);
      run.result.ok ==>
        forall step :: step in Plan(g, run.log[0].outcome.reply.id) ==>
          exists i :: 0 < i < |run.log| && run.log[i].call == FirstCall(run.log[0].outcome.reply.id, step)
  {
    var run := Provision(g, script);
    var log := run.log;
    if run.result.ok {
      var chat := log[0].outcome.reply.id;
      var plan := Plan(g, chat);
      var p := RunSteps(chat, plan, RestOf(script));
      PlanOk(g, chat);
      assert run == ProvisionRun(GroupResult(true, Some(chat), LinkOf(p.entries), None), [log[0]] + p.entries, p.rest);
      RunStepsReachEveryStep(chat, plan, RestOf(script));
      forall step | step in plan
        ensures exists i :: 0 < i < |log| && log[i].call == FirstCall(chat, step)
      {
        var i :| 0 <= i < |p.entries| && p.entries[i].call == FirstCall(chat, step);
        assert log[i + 1] == p.entries[i];
      }
    }
  }

  lemma RunStepsReachEveryStep(chat: int, steps: seq<Step>, script: seq<Outcome>)
    requires StepsOk(chat, steps) && RunSteps(chat, steps, script).escaped.None?
    ensures var es := RunSteps(chat, steps, script).entries;
      forall step :: step in steps ==> exists i :: 0 <= i < |es| && es[i].call == FirstCall(chat, step)
  {
    var es := RunSteps(chat, steps, script).entries;
    forall step | step in steps
      ensures exists i :: 0 <= i < |es| && es[i].call == FirstCall(chat, step)
    {
      var k :| 0 <= k < |steps| && steps[k] == step;
      RunStepsCover(chat, steps, script, k);
    }
  }

  /** In a successful run both bots were added, the curator was promoted with the curator rights
      and the contractors, when there are any, were added, all on the created chat. */
  lemma MembersAddedOnSuccess(g: GroupSetup, script: seq<Outcome>)
    ensures var run := Provision(g, script);
      var log := run.log;
      run.result.ok ==>
        var chat := log[0].outcome.reply.id;
        (g.contractorIds != [] ==>
          exists i :: 0 < i < |log| && log[i].call == AddChatMembers(chat, UserIds(g.contractorIds))) &&
        (exists i :: 0 < i < |log| && log[i].call == AddChatMembers(chat, [Username(g.bot2Username)])) &&
        (exists i :: 0 < i < |log| && log[i].call == AddChatMembers(chat, [Username(g.bot3Username)])) &&
        (exists i :: 0 < i < |log| && log[i].call == PromoteChatMember(chat, UserId(g.curatorId), CuratorRights))
  {
    var run := Provision(g, script);
    var o := NextOutcome(script);
    ProvisionShape(g, script);
    if run.result.ok {
      var chat := o.reply.id;
      MembersInPlanRun(g, chat, run.log[0], run.log, RestOf(script));
    }
  }

  /** `MembersAddedOnSuccess` for a log made of one call followed by a completed run of the plan. */
  lemma MembersInPlanRun(g: GroupSetup, chat: int, first: Entry, log: seq<Entry>, script: seq<Outcome>)
    requires var p := RunSteps(chat, Plan(g, chat), script); log == [first] + p.entries && p.escaped.None?
    ensures (g.contractorIds != [] ==>
        exists i :: 0 < i < |log| && log[i].call == AddChatMembers(chat, UserIds(g.contractorIds))) &&
      (exists i :: 0 < i < |log| && log[i].call == AddChatMembers(chat, [Username(g.bot2Username)])) &&
      (exists i :: 0 < i < |log| && log[i].call == AddChatMembers(chat, [Username(g.bot3Username)])) &&
      (exists i :: 0 < i < |log| && log[i].call == PromoteChatMember(chat, UserId(g.curatorId), CuratorRights))
  {
    var plan := Plan(g, chat);
    var n := |DescriptionSteps(g, chat) + PhotoSteps(g, chat)|;
    PlanOk(g, chat);
    PlanMembers(g, chat);
    ReachedStep(chat, plan, script, first, log, n, AddChatMembers(chat, [Username(g.bot2Username)]));
    ReachedStep(chat, plan, script, first, log, n + 1, AddChatMembers(chat, [Username(g.bot3Username)]));
    ReachedStep(chat, plan, script, first, log, n + 2, PromoteChatMember(chat, UserId(g.curatorId), CuratorRights));
    if g.contractorIds != [] {
      ReachedStep(chat, plan, script, first, log, n + 3, AddChatMembers(chat, UserIds(g.contractorIds)));
    }
  }

  /** The contractors are invited only when the list is non-empty. */
  lemma NoContractorCalls(g: GroupSetup, script: seq<Outcome>)
    requires g.contractorIds == []
    ensures NoRank(Provision(g, script).log, 6)
  {
    var log := Provision(g, script).log;
    var o := NextOutcome(script);
    if o.Ok? {
      var chat := o.reply.id;
      var plan := Plan(g, chat);
      var p := RunSteps(chat, plan, RestOf(script));
      PlanOk(g, chat);
      assert log == [log[0]] + p.entries;
      PlanAvoids(g, chat, 6);
      RunStepsAvoid(chat, plan, RestOf(script), 6);
    } else {
      assert log == [log[0]];
    }
  }

  /** Step `k` of a completed run of `steps`, logged after one other call, was begun by its
      first call `c`. */
  lemma ReachedStep(chat: int, steps: seq<Step>, script: seq<Outcome>, first: Entry, log: seq<Entry>, k: nat, c: Call)
    requires StepsOk(chat, steps) && k < |steps| && FirstCall(chat, steps[k]) == c
    requires var p := RunSteps(chat, steps, script); log == [first] + p.entries && p.escaped.None?
    ensures exists i :: 0 < i < |log| && log[i].call == c
  {
    var p := RunSteps(chat, steps, script);
    RunStepsCover(chat, steps, script, k);
    CoverShift([first], p.entries, c);
  }

  lemma {:induction false} RunStepsLastCall(chat: int, steps: seq<Step>, script: seq<Outcome>)
    requires StepsOk(chat, steps) && steps != [] && steps[|steps| - 1].Guarded?
    requires RunSteps(chat, steps, script).escaped.None?
    ensures var es := RunSteps(chat, steps, script).entries;
      es != [] && es[|es| - 1].call == steps[|steps| - 1].call
    decreases |steps|
  {
    var p := RunStep(chat, steps[0], script);
    StepFirstCall(chat, steps[0], script);
    assert StepOk(chat, steps[0]);
    assert p.escaped.None?;
    var q := RunSteps(chat, steps[1..], p.rest);
    assert RunSteps(chat, steps, script) == Phase(p.entries + q.entries, q.rest, q.escaped);
    if |steps| > 1 {
      StepsOkTail(chat, steps);
      RunStepsLastCall(chat, steps[1..], p.rest);
      var es := p.entries + q.entries;
      assert es[|es| - 1] == q.entries[|q.entries| - 1];
    } else {
      assert steps[1..] == [] && q.entries == [];
      assert p.entries == [Entry(steps[0].call, NextOutcome(script))];
    }
  }

  /** A successful run ends with the export of the invite link; the result's link is that
      call's reply, and a failed export leaves it None without failing the run. */
  lemma LinkIsExportReply(g: GroupSetup, script: seq<Outcome>)
    ensures var run := Provision(g, script);
      var last := run.log[|run.log| - 1];
      run.result.ok ==>
        last.call == ExportChatInviteLink(run.log[0].outcome.reply.id) &&
        (run.result.groupLink.Some? <==> last.outcome.Ok?) &&
        (last.outcome.Ok? ==> run.result.groupLink == Some(last.outcome.reply.link))
  {
    var run := Provision(g, script);
    if run.result.ok {
      var chat := run.log[0].outcome.reply.id;
      var plan := Plan(g, chat);
      var p := RunSteps(chat, plan, RestOf(script));
      PlanOk(g, chat);
      assert plan[|plan| - 1] == Guarded(ExportChatInviteLink(chat));
      RunStepsLastCall(chat, plan, RestOf(script));
      assert run.log == [run.log[0]] + p.entries;
      assert run.log[|run.log| - 1] == p.entries[|p.entries| - 1];
    }
  }

  predicate AllRpcErrors(script: seq<Outcome>, message: string) {
    forall i :: 0 <= i < |script| ==> script[i] == Err(RpcError(message))
  }

  lemma {:induction false} RunStepsRpcErrors(chat: int, steps: seq<Step>, script: seq<Outcome>, message: string)
    requires StepsOk(chat, steps) && AllRpcErrors(script, message) && |script| >= 2 * |steps|
    requires ClearRecent in steps
    ensures RunSteps(chat, steps, script).escaped == Some(RpcError(message))
    decreases |steps|
  {
    var p := RunStep(chat, steps[0], script);
    assert script[0] == Err(RpcError(message));
    if steps[0] != ClearRecent {
      assert StepOk(chat, steps[0]);
      assert p.escaped.None?;
      StepsOkTail(chat, steps);
      assert |p.rest| >= |script| - 2;
      assert p.rest == script[|script| - |p.rest|..];
      assert ClearRecent in steps[1..] by {
        var k :| 0 <= k < |steps| && steps[k] == ClearRecent;
        assert k != 0 && steps[1..][k - 1] == ClearRecent;
      }
      RunStepsRpcErrors(chat, steps[1..], p.rest, message);
    }
  }

  /** When the creation succeeds and every later call fails with an `RPCError`, provisioning
      fails: the failure of the history listing escapes. */
  lemma EveryLaterCallFailingFails(g: GroupSetup, script: seq<Outcome>, message: string)
    requires |script| >= 21 && script[0].Ok? && AllRpcErrors(script[1..], message)
    ensures !Provision(g, script).result.ok
    ensures Provision(g, script).result.error == Some(message)
  {
    var chat := script[0].reply.id;
    var plan := Plan(g, chat);
    PlanOk(g, chat);
    assert |plan| <= 10;
    assert ClearRecent in plan by {
      assert plan[|plan| - 3] == ClearRecent;
    }
    RunStepsRpcErrors(chat, plan, script[1..], message);
  }

  // ---------------------------------------------------------------------------------------
  // Removal, the fallback message and the join watcher

  /** `remove_contractor`: ban, then unban only if the ban succeeded; a failure of either call
      is re-raised. */
  function Removal(chat: int, contractorId: int, script: seq<Outcome>): Phase {
    var ban := NextOutcome(script);
    var banned := Entry(BanChatMember(chat, contractorId), ban);
    if ban.Err? then Phase([banned], RestOf(script), Some(ban.error))
    else
      var unban := NextOutcome(RestOf(script));
      Phase([banned, Entry(UnbanChatMember(chat, contractorId), unban)], RestOf(RestOf(script)),
        if unban.Err? then Some(unban.error) else None)
  }

  /** The ban comes first; the unban is attempted exactly when the ban succeeded; the removal
      raises exactly when one of its calls failed, and raises that call's error. */
  lemma RemovalBanThenUnban(chat: int, contractorId: int, script: seq<Outcome>)
    ensures var p := Removal(chat, contractorId, script);
      p.entries != [] && p.entries[0].call == BanChatMember(chat, contractorId) &&
      (|p.entries| > 1 <==> p.entries[0].outcome.Ok?) &&
      |p.entries| <= 2 &&
      (|p.entries| == 2 ==> p.entries[1].call == UnbanChatMember(chat, contractorId)) &&
      (p.escaped.Some? <==> exists i :: 0 <= i < |p.entries| && p.entries[i].outcome.Err?) &&
      (p.escaped.Some? ==> p.escaped.value == p.entries[|p.entries| - 1].outcome.error)
  {
    var p := Removal(chat, contractorId, script);
    if p.escaped.Some? {
      assert p.entries[|p.entries| - 1].outcome.Err?;
    }
  }

  /** A chat-member update as the handler reads it: the group, and the id of the user in
      `new_chat_member`, None when the update carries no new member. */
  datatype MemberUpdate = MemberUpdate(chatId: int, newMemberUserId: Option<int>)

  /** The tracked row the handler acts on: none when there is no new member or the user id is
      0 (falsy), else the first row for that user in that group. Any update with a new member
      qualifies; whether the member actually joined is not looked at. */
  function TrackedRow(rows: seq<FallbackStore.FallbackMessage>, update: MemberUpdate): (r: Option<FallbackStore.FallbackMessage>)
    ensures r.Some? ==>
      update.newMemberUserId.Some? && update.newMemberUserId.value != 0 && r.value in rows &&
      FallbackStore.IsFor(r.value, update.newMemberUserId.value, update.chatId)
    ensures r.None? <==>
      update.newMemberUserId.None? || update.newMemberUserId.value == 0 ||
      forall i :: 0 <= i < |rows| ==> !FallbackStore.IsFor(rows[i], update.newMemberUserId.value, update.chatId)
  {
    match update.newMemberUserId
    case None => None
    case Some(user) => if user == 0 then None else FallbackStore.FirstFor(rows, user, update.chatId)
  }

  /** Handling an update removes exactly one tracked row for the user and group when there is
      one, and leaves every other pair's rows alone. */
  lemma HandledUpdateDropsOneRow(rows: seq<FallbackStore.FallbackMessage>, update: MemberUpdate, contractorId: int, groupId: int)
    requires FallbackStore.IdsIncreasing(rows)
    requires TrackedRow(rows, update).Some?
    ensures var row := TrackedRow(rows, update).value;
      FallbackStore.CountFor(FallbackStore.WithoutId(rows, row.id), contractorId, groupId)
        == FallbackStore.CountFor(rows, contractorId, groupId)
           - (if contractorId == update.newMemberUserId.value && groupId == update.chatId then 1 else 0)
  {
    var row := TrackedRow(rows, update).value;
    FallbackStore.DeleteCount(rows, row, contractorId, groupId);
  }

  /** Rows are not unique per pair: when a contractor was sent two fallback messages for a
      group, one handled update leaves the second row in place. */
  lemma DuplicateRowSurvivesOneUpdate(rows: seq<FallbackStore.FallbackMessage>, update: MemberUpdate)
    requires FallbackStore.IdsIncreasing(rows)
    requires update.newMemberUserId.Some? && update.newMemberUserId.value != 0
    requires FallbackStore.CountFor(rows, update.newMemberUserId.value, update.chatId) >= 2
    ensures TrackedRow(rows, update).Some?
    ensures TrackedRow(FallbackStore.WithoutId(rows, TrackedRow(rows, update).value.id), update).Some?
  {
    var user := update.newMemberUserId.value;
    FallbackStore.FirstForIffCount(rows, user, update.chatId);
    var row := TrackedRow(rows, update).value;
    HandledUpdateDropsOneRow(rows, update, user, update.chatId);
    FallbackStore.FirstForIffCount(FallbackStore.WithoutId(rows, row.id), user, update.chatId);
  }

  // ---------------------------------------------------------------------------------------
  // The imperative userbot

  /** Running two lists of steps one after the other is running their concatenation. */
  lemma {:induction false} RunStepsAppend(chat: int, a: seq<Step>, b: seq<Step>, script: seq<Outcome>)
    ensures var p := RunSteps(chat, a, script);
      RunSteps(chat, a + b, script) ==
        if p.escaped.Some? then p
        else var q := RunSteps(chat, b, p.rest); Phase(p.entries + q.entries, q.rest, q.escaped)
    decreases |a|
  {
    if a == [] {
      assert a + b == b;
    } else {
      var ab := a + b;
      assert ab != [] && ab[0] == a[0] && ab[1..] == a[1..] + b;
      var p := RunStep(chat, a[0], script);
      if p.escaped.None? {
        RunStepsAppend(chat, a[1..], b, p.rest);
        var r := RunSteps(chat, a[1..], p.rest);
        var whole := RunSteps(chat, ab, script);
        var tail := RunSteps(chat, a[1..] + b, p.rest);
        assert whole == Phase(p.entries + tail.entries, tail.rest, tail.escaped);
        if r.escaped.None? {
          var q := RunSteps(chat, b, r.rest);
          assert tail == Phase(r.entries + q.entries, q.rest, q.escaped);
          assert p.entries + (r.entries + q.entries) == (p.entries + r.entries) + q.entries;
        }
      }
    }
  }

  /** A completed first stretch followed by a second is a run of the two lists together. */
  lemma Compose(chat: int, a: seq<Step>, b: seq<Step>, script: seq<Outcome>, p: Phase, q: Phase)
    requires p == RunSteps(chat, a, script) && p.escaped.None? && q == RunSteps(chat, b, p.rest)
    ensures RunSteps(chat, a + b, script) == Phase(p.entries + q.entries, q.rest, q.escaped)
  {
    RunStepsAppend(chat, a, b, script);
  }

  /** One turn of the loop over the service bots: the run of the bots from `i` on is the run
      of bot `i` followed, unless it escaped, by the run of the bots after it. */
  lemma BotLoopStep(chat: int, bots: seq<Member>, i: nat, script: seq<Outcome>)
    requires i < |bots|
    ensures var p := RunStep(chat, AddBot(bots[i]), script);
      RunSteps(chat, AddBots(bots[i..]), script) ==
        if p.escaped.Some? then p
        else var q := RunSteps(chat, AddBots(bots[i + 1..]), p.rest); Phase(p.entries + q.entries, q.rest, q.escaped)
  {
    assert AddBots(bots[i..])[0] == AddBot(bots[i]);
    assert AddBots(bots[i..])[1..] == AddBots(bots[i + 1..]);
  }

  /** The run of the final steps: the clearing, then, unless its listing failed, the history
      and the export, each in its own guarded call. */
  lemma FinalStepsRun(chat: int, script: seq<Outcome>)
    ensures var c := RunStep(chat, ClearRecent, script);
      RunSteps(chat, FinalSteps(chat), script) ==
        if c.escaped.Some? then c
        else
          var o := Soft(OpenPreHistory(chat), c.rest);
          var e := Soft(ExportChatInviteLink(chat), o.rest);
          Phase(c.entries + (o.entries + e.entries), e.rest, None)
  {
    var f := FinalSteps(chat);
    assert f[0] == ClearRecent && f[1..][0] == Guarded(OpenPreHistory(chat));
    assert f[1..][1..][0] == Guarded(ExportChatInviteLink(chat)) && f[1..][1..][1..] == [];
    var c := RunStep(chat, ClearRecent, script);
    if c.escaped.None? {
      var o := Soft(OpenPreHistory(chat), c.rest);
      var e := Soft(ExportChatInviteLink(chat), o.rest);
      assert RunSteps(chat, f[1..][1..][1..], e.rest) == Phase([], e.rest, None);
      assert RunSteps(chat, f[1..][1..], o.rest) == Phase(e.entries, e.rest, None);
      assert RunSteps(chat, f[1..], c.rest) == Phase(o.entries + e.entries, e.rest, None);
    }
  }

  lemma AppendAssoc(a: seq<Entry>, b: seq<Entry>, c: seq<Entry>)
    ensures a + b + c == a + (b + c)
  {
  }

  lemma LinkOfSuffix(a: seq<Entry>, b: seq<Entry>)
    requires b != []
    ensures LinkOf(a + b) == LinkOf(b)
  {
    assert (a + b)[|a + b| - 1] == b[|b| - 1];
  }

  class Userbot {
    const client: Client
    const storage: FallbackStore.Storage

    constructor (client: Client, storage: FallbackStore.Storage)
      ensures this.client == client && this.storage == storage
    {
      this.client := client;
      this.storage := storage;
    }

    /** `_delete_recent_messages` with its default limit: collect the ids of the newest
        messages, at most `HistoryLimit` of them, and delete them if there are any. A failure
        of the listing is not caught here. */
    method DeleteRecentMessages(chat: int) returns (raised: Option<Error>)
      modifies client
      ensures var p := RunStep(chat, ClearRecent, old(client.script));
        client.log == old(client.log) + p.entries && client.script == p.rest && raised == p.escaped
    {
      var listing := client.Invoke(GetChatHistory(chat, HistoryLimit));
      if listing.Err? {
        return Some(listing.error);
      }
      var yielded := listing.reply.messageIds;
      var ids: seq<int> := [];
      var i := 0;
      while i < |yielded| && i < HistoryLimit
        invariant 0 <= i <= |yielded| && i <= HistoryLimit
        invariant ids == yielded[..i]
      {
        ids := ids + [yielded[i]];
        i := i + 1;
      }
      assert ids == Take(yielded, HistoryLimit);
      if ids != [] {
        var _ := client.Invoke(DeleteMessages(chat, ids));
      }
      return None;
    }

    /** `_open_history_for_users`: best effort, every failure is swallowed. */
    method OpenHistoryForUsers(chat: int)
      modifies client
      ensures var p := Soft(OpenPreHistory(chat), old(client.script));
        client.log == old(client.log) + p.entries && client.script == p.rest
    {
      var _ := client.Invoke(OpenPreHistory(chat));
    }

    /** Add one service bot and promote it: an `RPCError` from the add is logged and the
        promotion still runs; any other error escapes. */
    method AddAndPromoteBot(chat: int, bot: Member) returns (raised: Option<Error>)
      modifies client
      ensures var p := RunStep(chat, AddBot(bot), old(client.script));
        client.log == old(client.log) + p.entries && client.script == p.rest && raised == p.escaped
    {
      var added := client.Invoke(AddChatMembers(chat, [bot]));
      if added.Err? && !added.error.IsRpc() {
        return Some(added.error);
      }
      var _ := client.Invoke(PromoteChatMember(chat, bot, BotRights));
      return None;
    }

    /** Promote the curator and set the custom title, in one guarded block. */
    method PromoteCuratorWithTitle(chat: int, curatorId: int, customTitle: string)
      modifies client
      ensures var p := RunStep(chat, PromoteCurator(curatorId, customTitle), old(client.script));
        client.log == old(client.log) + p.entries && client.script == p.rest
    {
      var promoted := client.Invoke(PromoteChatMember(chat, UserId(curatorId), CuratorRights));
      if promoted.Ok? {
        var _ := client.Invoke(SetAdministratorTitle(chat, curatorId, customTitle));
      }
    }

    /** The description, when non-empty, then the photo, when an icon is given. */
    method SetDescriptionAndPhoto(g: GroupSetup, chat: int)
      modifies client
      ensures var p := RunSteps(chat, DescriptionSteps(g, chat) + PhotoSteps(g, chat), old(client.script));
        client.log == old(client.log) + p.entries && client.script == p.rest && p.escaped.None?
    {
      ghost var s0 := client.script;
      RunStepsAppend(chat, DescriptionSteps(g, chat), PhotoSteps(g, chat), s0);
      if Present(g.description) {
        var _ := client.Invoke(SetChatDescription(chat, g.description.value));
      }
      ghost var s1 := client.script;
      if Present(g.iconBase64) {
        var _ := client.Invoke(SetChatPhoto(chat, g.iconBase64.value));
      }
      assert RunSteps(chat, PhotoSteps(g, chat), s1).entries == client.log[|old(client.log)| + |RunSteps(chat, DescriptionSteps(g, chat), s0).entries|..];
    }

    /** One turn of the loop over the service bots: bot `i` is added and promoted. The loop's
        invariant, that the whole run `total` is the calls made so far followed by the run of the
        bots from `i` on, holds again for `i + 1` unless this turn escaped, and then the calls
        made so far are all of `total`. */
    method BotTurn(chat: int, bots: seq<Member>, i: nat, ghost log0: seq<Entry>, ghost done: seq<Entry>, ghost total: Phase)
      returns (raised: Option<Error>, ghost done': seq<Entry>)
      requires i < |bots| && client.log == log0 + done
      requires var q := RunSteps(chat, AddBots(bots[i..]), client.script);
        total == Phase(done + q.entries, q.rest, q.escaped)
      modifies client
      ensures client.log == log0 + done'
      ensures raised.Some? ==> total == Phase(done', client.script, raised)
      ensures raised.None? ==>
        var q := RunSteps(chat, AddBots(bots[i + 1..]), client.script);
        total == Phase(done' + q.entries, q.rest, q.escaped)
    {
      ghost var s := client.script;
      ghost var p := RunStep(chat, AddBot(bots[i]), s);
      BotLoopStep(chat, bots, i, s);
      raised := AddAndPromoteBot(chat, bots[i]);
      done' := done + p.entries;
      if raised.None? {
        AppendAssoc(done, p.entries, RunSteps(chat, AddBots(bots[i + 1..]), p.rest).entries);
      }
    }

    /** The loop over the service bots, in order; an escaping error ends it. */
    method AddServiceBots(chat: int, bots: seq<Member>) returns (raised: Option<Error>)
      modifies client
      ensures var p := RunSteps(chat, AddBots(bots), old(client.script));
        client.log == old(client.log) + p.entries && client.script == p.rest && raised == p.escaped
    {
      ghost var log0 := client.log;
      ghost var total := RunSteps(chat, AddBots(bots), client.script);
      ghost var done: seq<Entry> := [];
      var i := 0;
      assert bots[i..] == bots;
      while i < |bots|
        invariant 0 <= i <= |bots|
        invariant var q := RunSteps(chat, AddBots(bots[i..]), client.script);
          total == Phase(done + q.entries, q.rest, q.escaped)
        invariant client.log == log0 + done
      {
        raised, done := BotTurn(chat, bots, i, log0, done, total);
        if raised.Some? {
          return;
        }
        i := i + 1;
      }
      assert AddBots(bots[i..]) == [];
      return None;
    }

    /** Invite the contractors, when there are any, in one guarded call. */
    method AddContractors(g: GroupSetup, chat: int)
      modifies client
      ensures var p := RunSteps(chat, ContractorSteps(g, chat), old(client.script));
        client.log == old(client.log) + p.entries && client.script == p.rest && p.escaped.None?
    {
      if g.contractorIds != [] {
        var _ := client.Invoke(AddChatMembers(chat, UserIds(g.contractorIds)));
      }
    }

    /** Clear the recent messages, open the history, export the invite link. */
    method FinishGroup(chat: int) returns (raised: Option<Error>, groupLink: Option<string>)
      modifies client
      ensures var p := RunSteps(chat, FinalSteps(chat), old(client.script));
        client.log == old(client.log) + p.entries && client.script == p.rest && raised == p.escaped &&
        (raised.None? ==> groupLink == LinkOf(p.entries))
    {
      ghost var s0 := client.script;
      ghost var log0 := client.log;
      FinalStepsRun(chat, s0);
      raised := DeleteRecentMessages(chat);
      ghost var c := RunStep(chat, ClearRecent, s0);
      if raised.Some? {
        return raised, None;
      }
      ghost var log1 := client.log;
      ghost var o := Soft(OpenPreHistory(chat), client.script);
      OpenHistoryForUsers(chat);
      ghost var log2 := client.log;
      ghost var e := Soft(ExportChatInviteLink(chat), client.script);
      groupLink := ExportLink(chat);
      assert client.log == log0 + c.entries + o.entries + e.entries;
      AppendAssoc(c.entries, o.entries, e.entries);
      LinkOfSuffix(c.entries + o.entries, e.entries);
    }

    /** `export_chat_invite_link` in its own guarded call: the link, or None when it failed. */
    method ExportLink(chat: int) returns (groupLink: Option<string>)
      modifies client
      ensures var p := Soft(ExportChatInviteLink(chat), old(client.script));
        client.log == old(client.log) + p.entries && client.script == p.rest && groupLink == LinkOf(p.entries)
    {
      var exported := client.Invoke(ExportChatInviteLink(chat));
      groupLink := None;
      if exported.Ok? {
        groupLink := Some(exported.reply.link);
      }
    }

    /** The steps before the curator's: description, photo and the service bots. */
    method SetupBeforeCurator(g: GroupSetup, chat: int) returns (raised: Option<Error>)
      modifies client
      ensures var p := RunSteps(chat, DescriptionSteps(g, chat) + PhotoSteps(g, chat) + AddBots(Bots(g)), old(client.script));
        client.log == old(client.log) + p.entries && client.script == p.rest && raised == p.escaped
    {
      ghost var s0 := client.script;
      ghost var pre := DescriptionSteps(g, chat) + PhotoSteps(g, chat);
      ghost var log0 := client.log;
      SetDescriptionAndPhoto(g, chat);
      ghost var log1 := client.log;
      var bots := [Username(g.bot2Username), Username(g.bot3Username)];
      assert bots == Bots(g);
      ghost var d := RunSteps(chat, pre, s0);
      assert log1 == log0 + d.entries && client.script == d.rest && d.escaped.None?;
      raised := AddServiceBots(chat, bots);
      ghost var q := RunSteps(chat, AddBots(bots), d.rest);
      assert client.log == log1 + q.entries && client.script == q.rest && raised == q.escaped;
      Compose(chat, pre, AddBots(bots), s0, d, q);
      AppendAssoc(log0, d.entries, q.entries);
    }

    /** The curator's step and everything after it. */
    method SetupFromCurator(g: GroupSetup, chat: int) returns (raised: Option<Error>, groupLink: Option<string>)
      modifies client
      ensures var p := RunSteps(chat, [PromoteCurator(g.curatorId, g.curatorLabel)] + (ContractorSteps(g, chat) + FinalSteps(chat)), old(client.script));
        client.log == old(client.log) + p.entries && client.script == p.rest && raised == p.escaped &&
        (raised.None? ==> groupLink == LinkOf(p.entries))
    {
      ghost var s0 := client.script;
      ghost var log0 := client.log;
      ghost var tail := ContractorSteps(g, chat) + FinalSteps(chat);
      ghost var steps := [PromoteCurator(g.curatorId, g.curatorLabel)] + tail;
      assert steps[0] == PromoteCurator(g.curatorId, g.curatorLabel) && steps[1..] == tail;
      PromoteCuratorWithTitle(chat, g.curatorId, g.curatorLabel);
      ghost var pc := RunStep(chat, steps[0], s0);
      ghost var s1 := client.script;
      ghost var log1 := client.log;
      assert log1 == log0 + pc.entries && s1 == pc.rest && pc.escaped.None?;
      AddContractors(g, chat);
      ghost var k := RunSteps(chat, ContractorSteps(g, chat), s1);
      ghost var s2 := client.script;
      ghost var log2 := client.log;
      assert log2 == log1 + k.entries && s2 == k.rest && k.escaped.None?;
      raised, groupLink := FinishGroup(chat);
      ghost var f := RunSteps(chat, FinalSteps(chat), s2);
      assert client.log == log2 + f.entries && client.script == f.rest && raised == f.escaped;
      Compose(chat, ContractorSteps(g, chat), FinalSteps(chat), s1, k, f);
      ghost var t := RunSteps(chat, tail, s1);
      assert t == Phase(k.entries + f.entries, f.rest, f.escaped);
      assert RunSteps(chat, steps, s0) == Phase(pc.entries + t.entries, t.rest, t.escaped);
      AppendAssoc(log0, pc.entries, k.entries);
      AppendAssoc(log0 + pc.entries, k.entries, f.entries);
      AppendAssoc(pc.entries, k.entries, f.entries);
      AppendAssoc(log0, pc.entries + k.entries, f.entries);
      if raised.None? {
        assert f.entries != [] by {
          assert FinalSteps(chat)[0] == ClearRecent;
          assert RunStep(chat, ClearRecent, s2).entries != [];
        }
        LinkOfSuffix(k.entries, f.entries);
        LinkOfSuffix(pc.entries, k.entries + f.entries);
      }
    }

    /** Everything after the creation. */
    method ConfigureGroup(g: GroupSetup, chat: int) returns (raised: Option<Error>, groupLink: Option<string>)
      modifies client
      ensures var p := RunSteps(chat, Plan(g, chat), old(client.script));
        client.log == old(client.log) + p.entries && client.script == p.rest && raised == p.escaped &&
        (raised.None? ==> groupLink == LinkOf(p.entries))
    {
      ghost var s0 := client.script;
      ghost var log0 := client.log;
      ghost var head := DescriptionSteps(g, chat) + PhotoSteps(g, chat) + AddBots(Bots(g));
      ghost var tail := [PromoteCurator(g.curatorId, g.curatorLabel)] + (ContractorSteps(g, chat) + FinalSteps(chat));
      ghost var all := RunSteps(chat, Plan(g, chat), s0);
      assert Plan(g, chat) == head + tail;
      RunStepsAppend(chat, head, tail, s0);
      ghost var h := RunSteps(chat, head, s0);
      raised := SetupBeforeCurator(g, chat);
      assert client.log == log0 + h.entries && client.script == h.rest && raised == h.escaped;
      if raised.Some? {
        assert all == h;
        return raised, None;
      }
      ghost var log1 := client.log;
      ghost var t := RunSteps(chat, tail, h.rest);
      assert all == Phase(h.entries + t.entries, t.rest, t.escaped);
      raised, groupLink := SetupFromCurator(g, chat);
      assert client.log == log1 + t.entries && client.script == t.rest && raised == t.escaped;
      AppendAssoc(log0, h.entries, t.entries);
      if raised.None? {
        assert groupLink == LinkOf(t.entries);
        assert t.entries != [] by {
          assert tail[0] == PromoteCurator(g.curatorId, g.curatorLabel);
        }
        LinkOfSuffix(h.entries, t.entries);
      }
    }

    /** `create_and_setup_group`: performs exactly the reference run `Provision`. */
    method CreateAndSetupGroup(g: GroupSetup) returns (res: GroupResult)
      modifies client
      ensures var run := Provision(g, old(client.script));
        res == run.result && client.log == old(client.log) + run.log && client.script == run.rest
    {
      ghost var s0 := client.script;
      ghost var log0 := client.log;
      var created := client.Invoke(CreateCall(g));
      ghost var first := Entry(CreateCall(g), created);
      if created.Err? {
        assert Provision(g, s0) == ProvisionRun(Failed(created.error), [first], RestOf(s0));
        return Failed(created.error);
      }
      var chat := created.reply.id;
      ghost var p := RunSteps(chat, Plan(g, chat), RestOf(s0));
      var raised, groupLink := ConfigureGroup(g, chat);
      AppendAssoc(log0, [first], p.entries);
      if raised.Some? {
        assert Provision(g, s0) == ProvisionRun(Failed(p.escaped.value), [first] + p.entries, p.rest);
        return Failed(raised.value);
      }
      assert Provision(g, s0) == ProvisionRun(GroupResult(true, Some(chat), LinkOf(p.entries), None), [first] + p.entries, p.rest);
      return GroupResult(true, Some(chat), groupLink, None);
    }

    /** `remove_contractor`: kick by ban and unban; the method's result is the error the
        source re-raises, None when it returns normally. */
    method RemoveContractor(chat: int, contractorId: int) returns (raised: Option<Error>)
      modifies client
      ensures var p := Removal(chat, contractorId, old(client.script));
        client.log == old(client.log) + p.entries && client.script == p.rest && raised == p.escaped
    {
      var banned := client.Invoke(BanChatMember(chat, contractorId));
      if banned.Err? {
        return Some(banned.error);
      }
      var unbanned := client.Invoke(UnbanChatMember(chat, contractorId));
      if unbanned.Err? {
        return Some(unbanned.error);
      }
      return None;
    }

    /** `send_fallback_message_and_track`: send the text to the contractor's private chat; only
        when the send succeeds, record the sent message for the pair and return its id. */
    method SendFallbackMessageAndTrack(contractorId: int, groupId: int, text: string) returns (r: Completion<int>)
      requires storage.Valid()
      modifies client, storage
      ensures storage.Valid()
      ensures var o := NextOutcome(old(client.script));
        client.log == old(client.log) + [Entry(SendMessage(contractorId, text), o)] &&
        client.script == RestOf(old(client.script)) &&
        (o.Ok? ==>
          r == Returned(o.reply.id) &&
          storage.rows == old(storage.rows) + [FallbackStore.FallbackMessage(old(storage.nextId), contractorId, groupId, o.reply.id)]) &&
        (o.Err? ==>
          r == Raised(o.error) && storage.rows == old(storage.rows) && storage.nextId == old(storage.nextId))
    {
      var sent := client.Invoke(SendMessage(contractorId, text));
      if sent.Err? {
        return Raised(sent.error);
      }
      storage.Add(contractorId, groupId, sent.reply.id);
      return Returned(sent.reply.id);
    }

    /** The chat-member-updated handler: when the update names a user with a tracked row for
        the group, delete that message in the user's private chat and drop the row whatever
        the deletion's outcome. It never raises. */
    method OnMemberUpdate(update: MemberUpdate)
      requires storage.Valid()
      modifies client, storage
      ensures storage.Valid()
      ensures var row := TrackedRow(old(storage.rows), update);
        (row.None? ==>
          client.log == old(client.log) && client.script == old(client.script) &&
          storage.rows == old(storage.rows)) &&
        (row.Some? ==>
          client.log == old(client.log) +
            [Entry(DeleteMessages(update.newMemberUserId.value, [row.value.messageId]), NextOutcome(old(client.script)))] &&
          client.script == RestOf(old(client.script)) &&
          storage.rows == FallbackStore.WithoutId(old(storage.rows), row.value.id))
    {
      if update.newMemberUserId.None? || update.newMemberUserId.value == 0 {
        return;
      }
      var user := update.newMemberUserId.value;
      var row := storage.Get(user, update.chatId);
      if row.None? {
        return;
      }
      var _ := client.Invoke(DeleteMessages(user, [row.value.messageId]));
      storage.Delete(row.value.id);
    }
  }
}
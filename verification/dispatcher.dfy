/** The dispatch stage of a route: scan the live bots (outer) against the
    route's response rules (inner); the first pair that is not filtered out
    renders and sends, and the request is answered 200; when every pair is
    filtered out the answer is 405 and nothing is sent. */
module Dispatcher {
  import opened Types
  import opened Template
  import opened Relay

  /** A pair is filtered out only when the platform AND the bot id both
      differ, so it is accepted when either one matches. */
  predicate Accepts(bot: Bot, rep: Rule) {
    bot.platform == rep.platform || bot.selfId == rep.sid
  }

  /** No (bot, rule) pair is accepted. */
  predicate NoneAccepted(bots: seq<Bot>, rules: seq<Rule>) {
    forall i, j :: 0 <= i < |bots| && 0 <= j < |rules| ==> !Accepts(bots[i], rules[j])
  }

  /** `(i, j)` is accepted and every pair scanned before it (an earlier bot,
      or the same bot with an earlier rule) is not. */
  predicate IsFirstAccepted(bots: seq<Bot>, rules: seq<Rule>, i: nat, j: nat) {
    && i < |bots| && j < |rules| && Accepts(bots[i], rules[j])
    && (forall i', j' :: 0 <= i' < i && 0 <= j' < |rules| ==> !Accepts(bots[i'], rules[j']))
    && (forall j' :: 0 <= j' < j ==> !Accepts(bots[i], rules[j']))
  }

  /** The first rule one bot accepts. */
  function FirstRule(bot: Bot, rules: seq<Rule>): (r: Option<nat>)
    ensures r.Some? ==> r.value < |rules| && Accepts(bot, rules[r.value])
    ensures r.Some? ==> forall j :: 0 <= j < r.value ==> !Accepts(bot, rules[j])
    ensures r.None? ==> forall j :: 0 <= j < |rules| ==> !Accepts(bot, rules[j])
    decreases |rules|
  {
    if |rules| == 0 then None
    else if Accepts(bot, rules[0]) then Some(0)
    else match FirstRule(bot, rules[1..])
      case None => None
      case Some(j) => Some(j + 1)
  }

  /** The first accepted pair of the bot-major scan, if any. */
  function FirstAccepted(bots: seq<Bot>, rules: seq<Rule>): (r: Option<(nat, nat)>)
    ensures r.Some? ==> IsFirstAccepted(bots, rules, r.value.0, r.value.1)
    ensures r.None? ==> NoneAccepted(bots, rules)
    decreases |bots|
  {
    if |bots| == 0 then None
    else match FirstRule(bots[0], rules)
      case Some(j) => Some((0, j))
      case None =>
        match FirstAccepted(bots[1..], rules)
        case None => None
        case Some(p) => Some((p.0 + 1, p.1))
  }

  /** The first accepted pair is unique: whatever pair is first in the scan
      order is the one `FirstAccepted` finds. */
  lemma FirstAcceptedIs(bots: seq<Bot>, rules: seq<Rule>, i: nat, j: nat)
    requires IsFirstAccepted(bots, rules, i, j)
    ensures FirstAccepted(bots, rules) == Some((i, j))
  {
  }

  /** An undefined payload is treated as an empty dictionary. */
  function DictOf(body: Option<VarDict>): VarDict {
    match body
    case None => []
    case Some(d) => d
  }

  /** What the dispatch stage answers and sends. The template variables
      are only turned into patterns once a pair is accepted, so a rejected
      key makes the handler throw only in that case. */
  function DispatchOutcome(bots: seq<Bot>, rules: seq<Rule>, dict: VarDict): Response {
    match FirstAccepted(bots, rules)
    case None => Answered(StatusNoBot, [])
    case Some(p) =>
      if AnyRejectedKey(dict) then Threw
      else Answered(StatusOk, Deliveries(bots[p.0], rules[p.1].sessions, RenderedMessage(rules[p.1], dict)))
  }

  /** The nested scan with its early return; an exception thrown while the
      message is rendered leaves the scan as well. */
  method Dispatch(bots: seq<Bot>, rules: seq<Rule>, body: Option<VarDict>) returns (outcome: Response)
    ensures outcome == DispatchOutcome(bots, rules, DictOf(body))
  {
    var i := 0;
    while i < |bots|
      invariant 0 <= i <= |bots|
      invariant forall i', j' :: 0 <= i' < i && 0 <= j' < |rules| ==> !Accepts(bots[i'], rules[j'])
    {
      var bot := bots[i];
      var j := 0;
      while j < |rules|
        invariant 0 <= j <= |rules|
        invariant forall j' :: 0 <= j' < j ==> !Accepts(bot, rules[j'])
      {
        var rep := rules[j];
        if bot.platform != rep.platform && bot.selfId != rep.sid {
          j := j + 1;
          continue;
        }
        var sent := SendResponseMsg(bot, rep.platform, rep, DictOf(body));
        FirstAcceptedIs(bots, rules, i, j);
        if sent.None? {
          return Threw;
        }
        return Answered(StatusOk, sent.value);
      }
      i := i + 1;
    }
    return Answered(StatusNoBot, []);
  }

  /** The answer is 405 with nothing sent exactly when no pair is accepted.
      Otherwise the first accepted pair's rule is rendered: the handler
      throws, having sent nothing, exactly when a key is rejected as a
      pattern, and else the answer is 200 and that pair's bot sends the
      rendered message to each of the rule's targets. */
  lemma DispatchOutcomeCases(bots: seq<Bot>, rules: seq<Rule>, dict: VarDict)
    ensures DispatchOutcome(bots, rules, dict) == Answered(StatusNoBot, []) <==> NoneAccepted(bots, rules)
    ensures DispatchOutcome(bots, rules, dict) == Threw <==> !NoneAccepted(bots, rules) && AnyRejectedKey(dict)
    ensures DispatchOutcome(bots, rules, dict).Answered? ==>
      (DispatchOutcome(bots, rules, dict).status == StatusOk <==> !NoneAccepted(bots, rules))
    ensures forall i: nat, j: nat :: IsFirstAccepted(bots, rules, i, j) && !AnyRejectedKey(dict) ==>
      DispatchOutcome(bots, rules, dict)
      == Answered(StatusOk, Deliveries(bots[i], rules[j].sessions, RenderedMessage(rules[j], dict)))
  {
    forall i: nat, j: nat | IsFirstAccepted(bots, rules, i, j) && !AnyRejectedKey(dict)
      ensures DispatchOutcome(bots, rules, dict)
           == Answered(StatusOk, Deliveries(bots[i], rules[j].sessions, RenderedMessage(rules[j], dict)))
    {
      FirstAcceptedIs(bots, rules, i, j);
    }
    if !NoneAccepted(bots, rules) {
      assert FirstAccepted(bots, rules).Some?;
    }
  }

  /** With no live bot or no response rule nothing can be accepted. */
  lemma NoBotOrNoRule(bots: seq<Bot>, rules: seq<Rule>, dict: VarDict)
    requires |bots| == 0 || |rules| == 0
    ensures DispatchOutcome(bots, rules, dict) == Answered(StatusNoBot, [])
  {
  }

  /** Bots after the first accepted pair are never examined: adding more
      live bots at the end does not change the outcome. */
  lemma {:induction false} LaterBotsIgnored(bots: seq<Bot>, more: seq<Bot>, rules: seq<Rule>, dict: VarDict)
    requires FirstAccepted(bots, rules).Some?
    ensures DispatchOutcome(bots + more, rules, dict) == DispatchOutcome(bots, rules, dict)
  {
    var p := FirstAccepted(bots, rules).value;
    var all := bots + more;
    forall i', j' | 0 <= i' < p.0 && 0 <= j' < |rules|
      ensures !Accepts(all[i'], rules[j'])
    {
      assert all[i'] == bots[i'];
    }
    assert all[p.0] == bots[p.0];
    assert IsFirstAccepted(all, rules, p.0, p.1);
    FirstAcceptedIs(all, rules, p.0, p.1);
  }

  /** Matching is by platform OR bot id: a bot on the rule's platform is
      chosen even when its id is not the rule's. */
  lemma PlatformAloneSelects(platform: string, selfId: string, sid: string, sessions: seq<string>, msg: seq<string>)
    requires selfId != sid
    ensures FirstAccepted([Bot(platform, selfId)], [Rule(platform, sid, sessions, msg)]) == Some((0, 0))
  {
    FirstAcceptedIs([Bot(platform, selfId)], [Rule(platform, sid, sessions, msg)], 0, 0);
  }
}

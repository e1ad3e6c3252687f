/** `sendResponseMsg`: render a rule's message for one request and send it
    through one bot to every conversation the rule lists. */
module Relay {
  import opened Types
  import opened Template

  /** The message a rule renders to for a variable dictionary. */
  function RenderedMessage(rep: Rule, dict: VarDict): string {
    Render(Join(rep.msg), dict)
  }

  /** The sends issued for one message: one per target, in target order,
      all through `bot`, all with the same text, and to no other target. */
  function Deliveries(bot: Bot, targets: seq<string>, text: string): (r: seq<Send>)
    ensures |r| == |targets|
    ensures forall k :: 0 <= k < |r| ==> r[k] == Send(bot, targets[k], text)
    decreases |targets|
  {
    if |targets| == 0 then []
    else [Send(bot, targets[0], text)] + Deliveries(bot, targets[1..], text)
  }

  /** Joins the lines, then for each variable in dictionary order builds
      the pattern `{key}` and replaces it; then sends the result to each
      target in order. When the pattern of some key is rejected by the
      RegExp constructor, the exception leaves the function before any
      message is sent (`None`). `platform` is passed by the caller and, as
      in the plugin, unused. */
  method SendResponseMsg(bot: Bot, platform: string, rep: Rule, dict: VarDict) returns (sends: Option<seq<Send>>)
    ensures sends.None? <==> AnyRejectedKey(dict)
    ensures sends.Some? ==> sends.value == Deliveries(bot, rep.sessions, RenderedMessage(rep, dict))
  {
    var msg := Join(rep.msg);
    for i := 0 to |dict|
      invariant msg == Render(Join(rep.msg), dict[..i])
      invariant forall k :: 0 <= k < i ==> !RejectedKey(dict[k].key)
    {
      if RejectedKey(dict[i].key) {
        return None;
      }
      assert dict[..i + 1][..i] == dict[..i];
      msg := ReplaceAll(msg, Placeholder(dict[i].key), dict[i].value);
    }
    assert dict[..|dict|] == dict;
    var out := [];
    for t := 0 to |rep.sessions|
      invariant |out| == t
      invariant forall k :: 0 <= k < t ==> out[k] == Send(bot, rep.sessions[k], msg)
    {
      out := out + [Send(bot, rep.sessions[t], msg)];
    }
    return Some(out);
  }
}

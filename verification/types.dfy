/** The configuration records, the live bot connections and the request
    values the webhook plugin works on. Everything here is a plain value:
    the plugin only reads its configuration and the host's bot list. */
module Types {

  datatype Option<+T> = None | Some(value: T)

  /** HTTP status codes the handlers write. */
  const StatusOk: int := 200
  const StatusBadRequest: int := 400
  const StatusNoBot: int := 405

  /** How a route listens. Only route registration and payload extraction
      read it, and neither is part of this model: the field is kept so that
      the record has the configuration's shape. */
  datatype Method = Get | Post

  /** One response rule (`responseType`): the platform and bot id it is
      meant for, the conversations to send to (`seeisonId`; a `private:`
      prefix marks a one-to-one chat, interpreted by the transport only)
      and the message template lines (`msg`). */
  datatype Rule = Rule(platform: string, sid: string, sessions: seq<string>, msg: seq<string>)

  /** One webhook definition (`Webhook`), bound to one path. */
  datatype Webhook = Webhook(listen: Method, headers: map<string, string>, response: seq<Rule>)

  /** The plugin configuration: path -> webhook definition. */
  type Config = map<string, Webhook>

  /** A live bot connection as the plugin sees it. */
  datatype Bot = Bot(platform: string, selfId: string)

  /** One template variable. A variable dictionary is the list of a payload
      object's own keys with their string values, in the order `for...in`
      enumerates them; the keys of a JavaScript object are distinct. */
  datatype Var = Var(key: string, value: string)
  type VarDict = seq<Var>

  /** One call of `bot.createMessage(target, text)`. */
  datatype Send = Send(bot: Bot, target: string, text: string)

  /** What one request produces: either a status written together with the
      messages sent, or an exception thrown out of the handler before any
      message was sent and before any status was written; what follows the
      exception belongs to the host. */
  datatype Response = Answered(status: int, sends: seq<Send>) | Threw

  /** An inbound request: its headers (names as the host server stores
      them) and the payload already turned into variables; `None` stands
      for an undefined body. */
  datatype Request = Request(headers: map<string, string>, body: Option<VarDict>)
}

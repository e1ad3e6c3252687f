# webhook-trigger-action, modelled in Dafny

The Koishi plugin `webhook-trigger-action` registers one HTTP route per
configured path. When a request arrives, the route does two things in order:

1. A header gate checks the request's headers against a map of expected
   values. The first mismatch answers 400 and stops.
2. A dispatch stage scans the live bots (outer loop) against the route's
   response rules (inner loop). The first (bot, rule) pair that is not
   filtered out does two things: it renders the rule's message template
   from the request payload, and it sends the result through that bot to
   every conversation the rule lists. The request is then answered 200.
   When no pair survives the filter, the answer is 405. Each variable key
   is turned into a regular expression `{key}`. When that pattern begins
   with a braced quantifier (keys such as `1`, `1,`, `1,2` or `1}x`), it is
   a quantifier with nothing to repeat. The RegExp constructor then throws,
   and the request fails before anything is sent.

This project models those three pieces of logic: rendering with fan-out,
the gate, and the dispatch. The models are imperative methods, each proved
against a specification function. Lemmas then state what those functions
promise.

- `types.dfy` (`Types`): the configuration records (`Rule` for
  `responseType`, `Webhook`, `Config`), live bots, template variables, sends,
  requests and responses.
- `template.dfy` (`Template`): joining lines (`Join`), literal global
  replacement (`ReplaceAll`) and substitution of the variables in order
  (`Render`). It also holds `Split`, the inverse of `Join`, and lemmas that
  pin down what `ReplaceAll` does.
- `relay.dfy` (`Relay`): `sendResponseMsg` as a method with its two loops.
- `dispatcher.dfy` (`Dispatcher`): the nested scan with early return. It is
  specified by the first accepted pair in bot-major order.
- `gate.dfy` (`Gate`): the header loop with early return.
- `handler.dfy` (`Handler`): both stages together. It also records which
  header map the plugin's gate actually walks (see Findings).

Modelling choices:

- A variable dictionary is a sequence of `Var(key, value)` entries. The
  sequence order is the order in which `for...in` enumerates the payload's
  keys, so the key order is an explicit input.
- An undefined payload is `None`. The dispatch stage treats it as an empty
  dictionary, as `body ? body : {}` does (src/index.ts:71).
- Sends are recorded as a list of `Send(bot, target, text)` values, in the
  order `createMessage` is called.
- A request's outcome is either `Answered(status, sends)` or `Threw`. `Threw`
  means the handler threw before sending anything or writing a status.
- Which keys the RegExp constructor refuses is modelled by `RejectedKey`:
  the pattern `{key}` starts with a braced quantifier `{n}`, `{n,}` or
  `{n,m}`. Every other key is replaced literally.
- Bot matching follows the code, not the apparent intent. A pair is skipped
  only when the platform AND the bot id both differ, so a bot is chosen when
  either one matches. `Dispatcher.PlatformAloneSelects` shows a bot being
  chosen on its platform alone.

## Model

| member | source | states |
|---|---|---|
| Template.SplitJoin | src/index.ts:41 | for at least one line, none of which holds a newline (lines may be empty), joining loses nothing: cutting the result at newlines gives the lines back |
| Template.ReplaceAllAbsent | src/index.ts:43 | replacing a placeholder that does not occur leaves the text unchanged |
| Template.ReplaceAllFirst | src/index.ts:43 | the first occurrence is replaced by the value, the text before it is kept, and replacement resumes after the occurrence, so every non-overlapping occurrence is replaced and nothing else changes |
| Template.RenderNoPlaceholders | src/index.ts:41-44 | when no variable's `{key}` occurs in the joined lines (in particular for an empty dictionary), the rendered message is the joined lines |
| Template.DefaultTemplateExample | src/index.ts:31 | the default template `hello {name}.` with `name = Alice` renders as `hello Alice.` |
| Template.TwoVariablesExample | src/index.ts:41-44 | `hi {name}, id={id}` with `name = Bob` and `id = 7` renders as `hi Bob, id=7` |
| Relay.Deliveries | src/index.ts:45-47 | the sends for a message are one per target, in target order, through the same bot, with the same text, and to no other target |
| Relay.SendResponseMsg | src/index.ts:40-48 | the function throws, sending nothing, exactly when some key's pattern is rejected by the RegExp constructor; otherwise the sends issued are the deliveries of the rendered message (lines joined, variables substituted in dictionary order) to the rule's targets |
| Template.NonDigitKeyAccepted | src/index.ts:43 | a key that does not start with a digit builds a pattern that does not start with a braced quantifier, the only rejection the model covers |
| Template.DigitKeyRejected | src/index.ts:43 | the key `1` builds the pattern `{1}`, a quantifier with nothing to repeat, which the RegExp constructor rejects |
| Template.DigitKeyLiteral | src/index.ts:43 | read literally, `n={1}` with `1 = x` becomes `n=x` |
| Dispatcher.FirstRule | src/index.ts:67-70 | the index found is the first rule the bot accepts; none is found only when the bot accepts no rule |
| Dispatcher.FirstAccepted | src/index.ts:66-73 | the pair found is accepted, and every pair scanned before it (earlier bot, or same bot with an earlier rule) is not; none is found only when no pair is accepted |
| Dispatcher.FirstAcceptedIs | src/index.ts:66-73 | the first accepted pair is unique, so any pair that is first in scan order is the one found |
| Dispatcher.Dispatch | src/index.ts:61-77 | the nested scan with early return produces exactly the outcome the first accepted pair (or no pair) determines, including the exception thrown while rendering |
| Dispatcher.DispatchOutcomeCases | src/index.ts:66-76 | the answer is 405 with nothing sent exactly when no pair is accepted; otherwise the handler throws exactly when a key is rejected, and else answers 200 with the first accepted pair's bot sending that rule's rendered message to each of its targets |
| Dispatcher.NoBotOrNoRule | src/index.ts:66-76 | with no live bot or no response rule, the answer is 405 and nothing is sent |
| Dispatcher.LaterBotsIgnored | src/index.ts:66-73 | once a pair is accepted, bots after it are never examined: extra bots at the end do not change the outcome |
| Dispatcher.PlatformAloneSelects | src/index.ts:68-70 | a bot on the rule's platform is the first accepted one even when its id differs from the rule's `sid` (OR matching) |
| Gate.HeaderGate | src/index.ts:57-60 | `next()` is called exactly when every expected header is present with the expected value; any missing or different header answers 400 |
| Gate.EmptyGatePasses | src/index.ts:57-60 | an empty or undefined header map always lets the request through |
| Handler.HandleRequest | src/index.ts:55-77 | gate then dispatch: the answer and the sends are those of the specification `Outcome` |
| Handler.OutcomeCases | src/index.ts:55-77 | every answer is 200, 400 or 405; it is 400 exactly when a header is missing or wrong; it is 200 exactly when the gate passes, some pair matches and no key is rejected; the handler throws exactly when the gate passes, some pair matches and a key is rejected; only a 200 sends anything |
| Handler.HandleAsWritten | src/index.ts:55-60 | the handler as registered walks `config.headers`, which is undefined without a path named `headers`, so it never answers 400 |
| Handler.HandleRoute | src/index.ts:55-60 | with the route's own `headers` walked, the answer is 400 exactly when one of them is missing or wrong, and then nothing is sent |
| Handler.AsWrittenIgnoresRouteHeaders | src/index.ts:57-58 | a route requiring `x-token` relays a request that lacks it, with status 200, as written; with the route's headers walked it answers 400 and sends nothing |
| Handler.DigitKeyScenario | src/index.ts:43 | a request with payload key `1` on a route whose rule matches a live bot throws, with nothing sent |
| Handler.PingScenario | src/index.ts:61-77 | rule `onebot`/`123`, template `ping {x}`, target `private:456`, one onebot bot `123`, query `x=5`: the bot sends `ping 5` to `private:456` and the answer is 200 |

## Left out

- Route registration (`ctx.server[item.method](path, ...)`, src/index.ts:53-55) is host-framework plumbing. The handlers are modelled per route, with the route's definition as a parameter.
- The `Schema` configuration definition (src/index.ts:23-33) is left out. Configurations are taken as well-formed values. Platforms are plain strings, not the schema's closed set.
- Logging (src/index.ts:56, 64, 75) is diagnostic only.
- `bot.createMessage` (src/index.ts:46) is recorded as a `Send` value. Its transport, its unawaited promise and its failures are not modelled.
- Payload extraction (src/index.ts:62) is left out: the query-string copy through `JSON.parse(JSON.stringify(...))` for GET, and the parsed body for POST. The request carries the variables already extracted, as strings. Non-string values, nested objects and a body that is not an object are not modelled.
- Template.ReplaceAll: models literal replacement of `{key}`. Keys whose pattern starts with a braced quantifier are modelled as throwing (`RejectedKey`). Other pattern metacharacters in keys (`.`, `*`, `(`, `[`, `\` and so on) are not modelled: with them the pattern may match other text or throw. `$` patterns in replacement values are not modelled either.
- Header names are compared as given. Lower-casing of incoming header names and multi-valued headers belong to the host server.
- Template.NonDigitKeyAccepted: does not promise that the RegExp constructor accepts the pattern. Keys holding an unbalanced `(`, `)` or `[`, or two quantifiers in a row (such as `a**`), still make it throw, and the model replaces them literally.
- Handler.HandleAsWritten: requires that no configured path is literally named `headers`. For such a configuration, the plugin's loop walks that route's `Webhook` object and compares request headers against its fields by JavaScript loose inequality; that coercion is not modelled.
- The `platform` argument of `sendResponseMsg` is carried but unused, as in the source.
- What the host server does with an exception thrown out of the handler (the status and body it answers with) belongs to the host. The model records it only as `Threw`.

## Findings

| source | as written | input that shows it | evidently intended | confidence | as-written member | corrected member |
|---|---|---|---|---|---|---|
| src/index.ts:57-58 | the gate walks `config.headers`, the path dictionary's entry named `headers`, so a route's own `headers` are never checked | route `/hook` requiring header `x-token: secret`, a request with no headers, one live onebot bot `1`: answered 200 and the message is sent | answered 400 with nothing sent, as the `headers` option's description (src/index.ts:26) and the loop's comment say | high, not executed | Handler.AsWrittenIgnoresRouteHeaders | Handler.HandleRoute |
| src/index.ts:43 | each key is handed to the RegExp constructor unescaped as `{key}`; for a key whose pattern `{key}` begins with a braced quantifier (`1`, `1,`, `1,2`, `1}x`) that is a quantifier with nothing to repeat, so the constructor throws and the request fails with nothing sent | `GET /api?1=x` on a route whose rule matches a live bot, or any non-empty JSON array body | `{1}` in the template replaced by `x`, like any other key, as the `msg` option's description (src/index.ts:31) says every key is replaced | high, not executed | Template.DigitKeyRejected | Template.DigitKeyLiteral |

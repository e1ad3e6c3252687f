/** One route's request handling: the header gate, then (when the gate
    calls `next()`) the dispatch stage. */
module Handler {
  import opened Types
  import opened Template
  import opened Relay
  import opened Dispatcher
  import opened Gate

  /** The outcome of one request, for the header map the gate walks
      (`expected`), the route's definition and the live bots. */
  function Outcome(expected: map<string, string>, item: Webhook, req: Request, bots: seq<Bot>): Response {
    if Rejects(expected, req.headers) then Answered(StatusBadRequest, [])
    else DispatchOutcome(bots, item.response, DictOf(req.body))
  }

  /** Both stages in sequence. */
  method HandleRequest(expected: map<string, string>, item: Webhook, req: Request, bots: seq<Bot>)
    returns (response: Response)
    ensures response == Outcome(expected, item, req, bots)
  {
    var callNext := HeaderGate(expected, req.headers);
    if !callNext {
      return Answered(StatusBadRequest, []);
    }
    response := Dispatch(bots, item.response, req.body);
  }

  /** Every answer is 200, 400 or 405: 400 exactly when a header is missing
      or wrong, 200 exactly when the gate passes, some bot and rule match
      and no key is rejected as a pattern; the handler throws exactly when
      the gate passes, some pair matches and a key is rejected. Only a 200
      sends anything. */
  lemma OutcomeCases(expected: map<string, string>, item: Webhook, req: Request, bots: seq<Bot>)
    ensures var r := Outcome(expected, item, req, bots);
      r.Answered? ==> r.status == StatusOk || r.status == StatusBadRequest || r.status == StatusNoBot
    ensures var r := Outcome(expected, item, req, bots);
      r == Answered(StatusBadRequest, []) <==> Rejects(expected, req.headers)
    ensures var r := Outcome(expected, item, req, bots);
      (r.Answered? && r.status == StatusOk)
      <==> !Rejects(expected, req.headers) && !NoneAccepted(bots, item.response) && !AnyRejectedKey(DictOf(req.body))
    ensures Outcome(expected, item, req, bots) == Threw
        <==> !Rejects(expected, req.headers) && !NoneAccepted(bots, item.response) && AnyRejectedKey(DictOf(req.body))
    ensures var r := Outcome(expected, item, req, bots);
      r.Answered? && r.status != StatusOk ==> r.sends == []
  {
    DispatchOutcomeCases(bots, item.response, DictOf(req.body));
  }

  /** The route handler as the plugin registers it. Its gate walks
      `config.headers`, the entry of the path dictionary that is named
      `headers`, not the route's own `headers`; without such a path that
      is undefined and the loop has nothing to walk. */
  method HandleAsWritten(config: Config, path: string, req: Request, bots: seq<Bot>)
    returns (response: Response)
    requires path in config && "headers" !in config
    ensures response == Outcome(map[], config[path], req, bots)
    ensures response.Answered? ==> response.status != StatusBadRequest
  {
    response := HandleRequest(map[], config[path], req, bots);
    OutcomeCases(map[], config[path], req, bots);
  }

  /** The route handler with the gate walking the route's own `headers`,
      as the option's description and the comment on the loop say. */
  method HandleRoute(config: Config, path: string, req: Request, bots: seq<Bot>)
    returns (response: Response)
    requires path in config
    ensures response == Outcome(config[path].headers, config[path], req, bots)
    ensures response == Answered(StatusBadRequest, []) <==> Rejects(config[path].headers, req.headers)
  {
    response := HandleRequest(config[path].headers, config[path], req, bots);
    OutcomeCases(config[path].headers, config[path], req, bots);
  }

  /** A route that asks for an `x-token` header. */
  const TokenRoute: Webhook := Webhook(Post, map["x-token" := "secret"], [Rule("onebot", "1", ["private:2"], ["ping"])])

  /** With the configuration `{"/hook": TokenRoute}` (no path named
      `headers`, so `HandleAsWritten` applies and walks no header map), a
      request without the required header is still relayed and answered
      200; with the route's own headers walked it is refused with 400 and
      nothing is sent. */
  lemma AsWrittenIgnoresRouteHeaders()
    ensures Outcome(map[], TokenRoute, Request(map[], None), [Bot("onebot", "1")])
         == Answered(StatusOk, [Send(Bot("onebot", "1"), "private:2", "ping")])
    ensures Outcome(TokenRoute.headers, TokenRoute, Request(map[], None), [Bot("onebot", "1")])
         == Answered(StatusBadRequest, [])
  {
    var bots := [Bot("onebot", "1")];
    assert Mismatch(TokenRoute.headers, map[], "x-token");
    FirstAcceptedIs(bots, TokenRoute.response, 0, 0);
    assert Join(["ping"]) == "ping";
  }

  /** A GET route `/api` without headers, a rule for onebot bot `123` that
      sends `ping {x}` to `private:456`, one live onebot bot `123`, and the
      query `x=5`: the bot sends `ping 5` to `private:456` and the answer
      is 200. */
  lemma PingScenario()
    ensures var rule := Rule("onebot", "123", ["private:456"], ["ping {x}"]);
      Outcome(map[], Webhook(Get, map[], [rule]), Request(map[], Some([Var("x", "5")])), [Bot("onebot", "123")])
      == Answered(StatusOk, [Send(Bot("onebot", "123"), "private:456", "ping 5")])
  {
    var rule := Rule("onebot", "123", ["private:456"], ["ping {x}"]);
    var bots := [Bot("onebot", "123")];
    FirstAcceptedIs(bots, [rule], 0, 0);
    NonDigitKeyAccepted("x");
    assert Join(rule.msg) == "ping " + Placeholder("x") + "";
    NoPlaceholderIn("", "x", 0);
    SubstituteOnce("ping ", "", "x", "5");
    assert [Var("x", "5")][..0] == [];
    assert RenderedMessage(rule, [Var("x", "5")]) == "ping 5";
  }

  /** A request whose payload has a key of digits, such as `GET /api?1=x`,
      on a route whose rule matches a live bot: the RegExp constructor
      throws while the message is rendered, nothing is sent and no status
      is written by the plugin. */
  lemma DigitKeyScenario()
    ensures var rule := Rule("onebot", "123", ["private:456"], ["n={1}"]);
      Outcome(map[], Webhook(Get, map[], [rule]), Request(map[], Some([Var("1", "x")])), [Bot("onebot", "123")])
      == Threw
  {
    var rule := Rule("onebot", "123", ["private:456"], ["n={1}"]);
    FirstAcceptedIs([Bot("onebot", "123")], [rule], 0, 0);
    DigitKeyRejected();
    assert RejectedKey([Var("1", "x")][0].key);
  }
}

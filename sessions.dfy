/** The session store and the commands that use it (bot.py:45-46, 143-230):
    per-user conversation histories and personas, the `ask` and `summarize`
    commands that relay through the gateway, `setpersona`, `reset`, and the
    counts the `stats` command reports. */
module Sessions {
  import opened Wrappers
  import opened Usage
  import opened Gateway
  import opened Chunker

  /** `str(ctx.author.id)`. */
  type UserId = string

  /** The model names `ask` and `summarize` request (bot.py:163, 186). */
  const AskModel := "discord"
  const SummarizeModel := "summarizer"

  /** The history `ask` continues for `user` (bot.py:149-157): the stored one,
      or else a fresh one holding the user's persona as a system message when
      a persona is set. */
  function StartingHistory(sessions: map<UserId, seq<Message>>, personas: map<UserId, string>, user: UserId): seq<Message>
  {
    if user in sessions then sessions[user]
    else if user in personas then [Message(System, personas[user])]
    else []
  }

  /** `user_sessions` after one `ask` whose gateway call returned `reply`
      (bot.py:159-165). */
  function AfterAsk(sessions: map<UserId, seq<Message>>, personas: map<UserId, string>,
                    user: UserId, prompt: string, reply: string): map<UserId, seq<Message>>
  {
    sessions[user := StartingHistory(sessions, personas, user) + [Message(User, prompt), Message(Assistant, reply)]]
  }

  /** The number of messages over all histories (bot.py:213). */
  ghost function TotalMessages(sessions: map<UserId, seq<Message>>): nat
    decreases |sessions|
  {
    if sessions == map[] then 0
    else
      var u :| u in sessions;
      assert |sessions - {u}| < |sessions| by {
        assert (sessions - {u}).Keys == sessions.Keys - {u};
      }
      |sessions[u]| + TotalMessages(sessions - {u})
  }

  lemma RemoveShrinks(sessions: map<UserId, seq<Message>>, u: UserId)
    requires u in sessions
    ensures |sessions - {u}| == |sessions| - 1
  {
  }

  /** The total does not depend on the order the histories are visited in:
      any history can be taken out first. */
  lemma {:induction false} TotalMessagesRemove(sessions: map<UserId, seq<Message>>, u: UserId)
    requires u in sessions
    ensures TotalMessages(sessions) == |sessions[u]| + TotalMessages(sessions - {u})
    decreases |sessions|
  {
    assert exists v :: v in sessions && TotalMessages(sessions) == |sessions[v]| + TotalMessages(sessions - {v});
    var v :| v in sessions && TotalMessages(sessions) == |sessions[v]| + TotalMessages(sessions - {v});
    if v != u {
      RemoveShrinks(sessions, u);
      RemoveShrinks(sessions, v);
      var rest := sessions - {u} - {v};
      assert sessions - {v} - {u} == rest;
      TotalMessagesRemove(sessions - {v}, u);
      TotalMessagesRemove(sessions - {u}, v);
    }
  }

  /** Replacing one history changes the total by the difference in length. */
  lemma TotalMessagesUpdate(sessions: map<UserId, seq<Message>>, u: UserId, history: seq<Message>)
    ensures TotalMessages(sessions[u := history]) + (if u in sessions then |sessions[u]| else 0)
            == TotalMessages(sessions) + |history|
  {
    var updated := sessions[u := history];
    TotalMessagesRemove(updated, u);
    if u in sessions {
      TotalMessagesRemove(sessions, u);
      assert updated - {u} == sessions - {u};
    } else {
      assert updated - {u} == sessions;
    }
  }

  /** `ask` touches only its user's history: a new history starts with the
      persona as a system message exactly when one is set, an existing one is
      extended, in both cases by the user message and then the assistant
      message holding whatever the gateway returned. */
  lemma AskUpdatesOnlyItsUser(sessions: map<UserId, seq<Message>>, personas: map<UserId, string>,
                              user: UserId, prompt: string, reply: string)
    ensures AfterAsk(sessions, personas, user, prompt, reply).Keys == sessions.Keys + {user}
    ensures forall u :: u in sessions && u != user ==> AfterAsk(sessions, personas, user, prompt, reply)[u] == sessions[u]
    ensures user in sessions ==>
              AfterAsk(sessions, personas, user, prompt, reply)[user]
              == sessions[user] + [Message(User, prompt), Message(Assistant, reply)]
    ensures user !in sessions ==>
              (AfterAsk(sessions, personas, user, prompt, reply)[user][0].role == System <==> user in personas)
    ensures user !in sessions && user in personas ==>
              AfterAsk(sessions, personas, user, prompt, reply)[user]
              == [Message(System, personas[user]), Message(User, prompt), Message(Assistant, reply)]
    ensures user !in sessions && user !in personas ==>
              AfterAsk(sessions, personas, user, prompt, reply)[user]
              == [Message(User, prompt), Message(Assistant, reply)]
  {
  }

  /** Each `ask` adds two messages to the total, three when it starts a history
      seeded with a persona. */
  lemma AskAddsMessages(sessions: map<UserId, seq<Message>>, personas: map<UserId, string>,
                        user: UserId, prompt: string, reply: string)
    ensures TotalMessages(AfterAsk(sessions, personas, user, prompt, reply))
            == TotalMessages(sessions) + 2 + (if user !in sessions && user in personas then 1 else 0)
  {
    TotalMessagesUpdate(sessions, user,
      StartingHistory(sessions, personas, user) + [Message(User, prompt), Message(Assistant, reply)]);
  }

  /** `reset` drops exactly that user's messages from the total. */
  lemma ResetRemovesMessages(sessions: map<UserId, seq<Message>>, user: UserId)
    ensures TotalMessages(sessions - {user}) + (if user in sessions then |sessions[user]| else 0)
            == TotalMessages(sessions)
  {
    if user in sessions {
      TotalMessagesRemove(sessions, user);
    } else {
      assert sessions - {user} == sessions;
    }
  }

  /** After `reset`, the next `ask` starts over: the history holds only the
      current persona (if any) and the new exchange; no earlier message reappears. */
  lemma ResetThenAsk(sessions: map<UserId, seq<Message>>, personas: map<UserId, string>,
                     user: UserId, prompt: string, reply: string)
    ensures AfterAsk(sessions - {user}, personas, user, prompt, reply)[user]
            == (if user in personas then [Message(System, personas[user])] else [])
               + [Message(User, prompt), Message(Assistant, reply)]
  {
  }

  /** Setting a persona for one user never changes how another user's history
      is seeded, and never rewrites a history that already exists. */
  lemma PersonaIsolation(sessions: map<UserId, seq<Message>>, personas: map<UserId, string>,
                         user: UserId, persona: string, other: UserId)
    ensures other != user ==>
              StartingHistory(sessions, personas[user := persona], other) == StartingHistory(sessions, personas, other)
    ensures user in sessions ==>
              StartingHistory(sessions, personas[user := persona], user) == sessions[user]
  {
  }

  /** Two `ask`s in a row: the second request carries the first request's user
      and assistant messages followed by the new user message, in order. */
  lemma ConsecutiveAsks(sessions: map<UserId, seq<Message>>, personas: map<UserId, string>,
                        user: UserId, prompt1: string, reply1: string, prompt2: string)
    ensures StartingHistory(AfterAsk(sessions, personas, user, prompt1, reply1), personas, user) + [Message(User, prompt2)]
            == StartingHistory(sessions, personas, user)
               + [Message(User, prompt1), Message(Assistant, reply1), Message(User, prompt2)]
  {
  }

  /** The pieces `ask` and `summarize` send back to the channel, one
      `ctx.send` each (bot.py:167-168, 188-189). */
  method ReplyChunks(response: string) returns (chunks: seq<string>)
    ensures chunks == Chunks(response, DefaultMaxLength)
  {
    chunks := SplitMessage(response, DefaultMaxLength);
  }

  /** What the `stats` command reports (bot.py:211-229), before formatting. */
  datatype StatsReport = StatsReport(
    activeConversations: nat,
    customPersonas: nat,
    totalMessages: nat,
    usage: Totals,
    avgSpeed: real)

  /** The bot's process-lifetime state: `user_sessions`, `user_personas` and
      `stats_data` (bot.py:45-54). */
  class Bot {
    var userSessions: map<UserId, seq<Message>>
    var userPersonas: map<UserId, string>
    const stats: UsageStats

    constructor ()
      ensures userSessions == map[] && userPersonas == map[]
      ensures fresh(stats) && stats.Snapshot() == ZeroTotals
    {
      userSessions := map[];
      userPersonas := map[];
      stats := new UsageStats();
    }

    /** `ask <prompt>` (bot.py:146-168): returns the payload sent to the model
        and the chunks sent back to the channel. */
    method Ask(user: UserId, prompt: string, exchange: Exchange) returns (payload: Payload, chunks: seq<string>)
      modifies this, stats
      ensures payload == Payload(AskModel, StartingHistory(old(userSessions), old(userPersonas), user) + [Message(User, prompt)])
      ensures userSessions == AfterAsk(old(userSessions), old(userPersonas), user, prompt, Interpret(exchange).reply)
      ensures userPersonas == old(userPersonas)
      ensures Interpret(exchange).recorded.None? ==> stats.Snapshot() == old(stats.Snapshot())
      ensures Interpret(exchange).recorded.Some? ==>
                stats.Snapshot() == Record(old(stats.Snapshot()), Interpret(exchange).recorded.value)
      ensures chunks == Chunks(Interpret(exchange).reply, DefaultMaxLength)
    {
      ghost var start := StartingHistory(userSessions, userPersonas, user);
      ghost var sessions0 := userSessions;
      var messages: seq<Message>;
      if user in userSessions {
        messages := userSessions[user];
      } else {
        messages := [];
        if user in userPersonas {
          messages := messages + [Message(System, userPersonas[user])];
        }
      }
      assert messages == start;
      messages := messages + [Message(User, prompt)];
      userSessions := userSessions[user := messages];

      var response;
      payload, response := SendRequest(stats, AskModel, messages, exchange);
      assert response == Interpret(exchange).reply;
      messages := messages + [Message(Assistant, response)];
      userSessions := userSessions[user := messages];
      assert messages == start + [Message(User, prompt), Message(Assistant, response)];
      assert userSessions == sessions0[user := messages];

      chunks := ReplyChunks(response);
    }

    /** `summarize <text>` (bot.py:180-189): a one-message request that no
        history records. */
    method Summarize(text: string, exchange: Exchange) returns (payload: Payload, chunks: seq<string>)
      modifies stats
      ensures payload == Payload(SummarizeModel, [Message(User, text)])
      ensures userSessions == old(userSessions) && userPersonas == old(userPersonas)
      ensures Interpret(exchange).recorded.None? ==> stats.Snapshot() == old(stats.Snapshot())
      ensures Interpret(exchange).recorded.Some? ==>
                stats.Snapshot() == Record(old(stats.Snapshot()), Interpret(exchange).recorded.value)
      ensures chunks == Chunks(Interpret(exchange).reply, DefaultMaxLength)
    {
      var messages := [Message(User, text)];
      var response;
      payload, response := SendRequest(stats, SummarizeModel, messages, exchange);
      chunks := ReplyChunks(response);
    }

    /** `setpersona <persona>` (bot.py:192-195). */
    method SetPersona(user: UserId, persona: string)
      modifies this
      ensures userPersonas == old(userPersonas)[user := persona]
      ensures userSessions == old(userSessions)
    {
      userPersonas := userPersonas[user := persona];
    }

    /** `reset` (bot.py:198-201): `user_sessions.pop(user_id, None)`. */
    method Reset(user: UserId)
      modifies this
      ensures userSessions == old(userSessions) - {user}
      ensures user !in old(userSessions) ==> userSessions == old(userSessions)
      ensures userPersonas == old(userPersonas)
    {
      userSessions := userSessions - {user};
    }

    /** `stats` (bot.py:210-214): the counts and the mean speed it reports. */
    method Stats() returns (report: StatsReport)
      ensures report.activeConversations == |userSessions|
      ensures report.customPersonas == |userPersonas|
      ensures report.totalMessages == TotalMessages(userSessions)
      ensures report.usage == stats.Snapshot()
      ensures report.avgSpeed == Mean(stats.avgResponseSpeed)
    {
      var total := 0;
      var rest := userSessions;
      while rest != map[]
        invariant total + TotalMessages(rest) == TotalMessages(userSessions)
        decreases |rest|
      {
        var u :| u in rest;
        TotalMessagesRemove(rest, u);
        RemoveShrinks(rest, u);
        total := total + |rest[u]|;
        rest := rest - {u};
      }
      var avg := Mean(stats.avgResponseSpeed);
      report := StatsReport(|userSessions|, |userPersonas|, total, stats.Snapshot(), avg);
    }
  }

  /** The `ask "Hello"` exchange answered with "Hi there" and usage
      5 + 3 = 8 tokens over two seconds. */
  method HelloScenario()
  {
    var bot := new Bot();
    var usage := Usage(Some(5), Some(3), Some(8), Some(2000000000), None);
    var answer := Completion(Some(usage), Some([Choice(Some(ChoiceMessage(Some("Hi there"))))]));
    var hello := Answered(200, Readable(""), Json(answer));
    assert Interpret(hello) == Outcome("Hi there", Some(usage));
    var payload, chunks := bot.Ask("42", "Hello", hello);
    assert payload.messages == [Message(User, "Hello")];
    assert bot.userSessions["42"] == [Message(User, "Hello"), Message(Assistant, "Hi there")];
    assert bot.stats.totalRequests == 1 && bot.stats.totalTokens == 8;
    ChunkProperties("Hi there", DefaultMaxLength);
    assert |chunks| > 0;
  }

  /** A request answered with HTTP 500 still leaves the user's message in the
      history, followed by the API-error reply, and records no usage. */
  method ServerErrorScenario()
  {
    var bot := new Bot();
    var failure := Answered(500, Readable("server error"), Undecodable(""));
    assert Interpret(failure) == Outcome(ApiErrorReply(500), None);
    var _, _ := bot.Ask("42", "Again", failure);
    assert bot.userSessions["42"] == [Message(User, "Again"), Message(Assistant, ApiErrorReply(500))];
    assert bot.stats.totalRequests == 0;
  }
}

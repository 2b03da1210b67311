/**
 * The voice-query dispatcher of hooks/useVoiceAgent.ts. React state becomes
 * the explicit `Agent` value; the speech synthesiser becomes the `spoken`
 * output of a step; the call to the proxy becomes the `request` output of a
 * step together with a `RemoteOutcome` parameter that says how it ended.
 */
module VoiceAgent {
  import opened Wrappers
  import opened JsText
  import StatStore

  datatype Role = User | Assistant

  /** One turn of the conversation history. */
  datatype Message = Message(role: Role, content: string)

  /** The assistant's mute state and conversation history. */
  datatype Agent = Agent(muted: bool, messages: seq<Message>)

  /** The hook's initial state: listening, nothing said yet. */
  const Initial: Agent := Agent(false, [])

  /** What `fetch('/api/voice-agent')` did: answered with a 2xx body, answered otherwise, or threw. */
  datatype RemoteOutcome = Ok(answer: string) | NotOk | Threw

  /** The body posted to the proxy. */
  datatype Request = Request(prompt: string, history: seq<Message>)

  type Positive = n: int | n > 0 witness 1

  /** The answers `getAnswer` can produce, before rendering. */
  datatype Answer =
    | NoPointData
    | AveragePointDuration(totalMs: int, count: Positive)
    | NoServes
    | MaxServeSpeed(kmh: int)
    | ModelError
    | Relayed(text: string)

  const ActivationWord := "activar"
  const ActivationText := "Micrófono activado"
  const NoPointDataText := "Aún no hay datos de puntos."
  const NoServesText := "No se han detectado saques todavía."
  const ModelErrorText := "Error al contactar el modelo."

  /** The text spoken and logged for an answer. */
  function Render(a: Answer): string {
    match a
    case NoPointData => NoPointDataText
    case AveragePointDuration(total, count) =>
      "La duración promedio de los puntos es " + Fixed1OfThousandths(total, count) + " segundos."
    case NoServes => NoServesText
    case MaxServeSpeed(kmh) => "La velocidad máxima de saque registrada es " + IntToString(kmh) + " km/h."
    case ModelError => ModelErrorText
    case Relayed(text) => text
  }

  /** `text.trim().toLowerCase()`. */
  function Normalise(text: string): (r: string)
    ensures |r| <= |text|
    ensures r == [] <==> AllTrimmable(text)
  {
    Lower(Trim(text))
  }

  /** `/duraci[oó]n.*punto/i` */
  const DurationHead: Pattern := Literal("duraci") + [['o', 'ó']] + Literal("n")
  const DurationTail: Pattern := Literal("punto")

  /** `/velocidad.*saque/i` */
  const SpeedHead: Pattern := Literal("velocidad")
  const SpeedTail: Pattern := Literal("saque")

  predicate AsksPointDuration(text: string) {
    SpanMatch(text, DurationHead, DurationTail)
  }

  predicate AsksServeSpeed(text: string) {
    SpanMatch(text, SpeedHead, SpeedTail)
  }

  /** `(p.end ?? Date.now()) - p.start`: a point still being played is measured up to `now`. */
  function Duration(p: StatStore.PointRecord, now: int): int {
    p.end.GetOr(now) - p.start
  }

  /** The sum the `reduce` computes, left to right. */
  function TotalDuration(points: seq<StatStore.PointRecord>, now: int): int {
    if points == [] then 0
    else TotalDuration(points[..|points| - 1], now) + Duration(points[|points| - 1], now)
  }

  /** `Math.max(...speeds)`: a recorded speed that no recorded speed exceeds. */
  function MaxSpeed(serves: seq<StatStore.ServeRecord>): (m: int)
    requires |serves| > 0
    ensures exists i :: 0 <= i < |serves| && serves[i].speed == m
    ensures forall i :: 0 <= i < |serves| ==> serves[i].speed <= m
  {
    if |serves| == 1 then serves[0].speed
    else
      var rest := MaxSpeed(serves[1..]);
      assert forall i :: 1 <= i < |serves| ==> serves[i] == serves[1..][i - 1];
      if serves[0].speed >= rest then serves[0].speed else rest
  }

  /** The answer chosen, and the request made to the proxy if any. */
  datatype Resolution = Resolution(answer: Answer, request: Option<Request>)

  /**
   * `getAnswer`: point-duration questions first, then serve-speed questions,
   * and only the rest go to the remote model.
   */
  function GetAnswer(text: string, history: seq<Message>, store: StatStore.Store, now: int,
                     remote: RemoteOutcome): (r: Resolution)
    ensures (AsksPointDuration(text) || AsksServeSpeed(text)) <==> r.request.None?
    ensures r.request.Some? ==> r.request.value == Request(text, history)
    ensures AsksPointDuration(text) ==>
              && (r.answer == NoPointData <==> |store.points| == 0)
              && (|store.points| > 0 ==> r.answer == AveragePointDuration(TotalDuration(store.points, now), |store.points|))
    ensures !AsksPointDuration(text) && AsksServeSpeed(text) ==>
              && (r.answer == NoServes <==> |store.serves| == 0)
              && (|store.serves| > 0 ==> (r.answer.MaxServeSpeed?
                    && (exists i :: 0 <= i < |store.serves| && store.serves[i].speed == r.answer.kmh)
                    && (forall i :: 0 <= i < |store.serves| ==> store.serves[i].speed <= r.answer.kmh)))
    ensures r.request.Some? ==> r.answer == (if remote.Ok? then Relayed(remote.answer) else ModelError)
  {
    if AsksPointDuration(text) then
      if |store.points| == 0 then Resolution(NoPointData, None)
      else Resolution(AveragePointDuration(TotalDuration(store.points, now), |store.points|), None)
    else if AsksServeSpeed(text) then
      if |store.serves| == 0 then Resolution(NoServes, None)
      else Resolution(MaxServeSpeed(MaxSpeed(store.serves)), None)
    else
      Resolution(if remote.Ok? then Relayed(remote.answer) else ModelError, Some(Request(text, history)))
  }

  /** The result of handling one recognised utterance. */
  datatype Outcome = Outcome(agent: Agent, spoken: Option<string>, request: Option<Request>)

  /** The utterance is a real conversational turn: not blank, not the activation word. */
  predicate IsConversational(text: string) {
    Normalise(text) != [] && !Includes(Normalise(text), ActivationWord)
  }

  /**
   * `handleQuery`: blank input is ignored; anything containing the activation
   * word unmutes and confirms; while muted everything else is dropped;
   * otherwise the user turn and the answer are appended and the answer spoken.
   */
  function HandleQuery(agent: Agent, store: StatStore.Store, text: string, now: int,
                       remote: RemoteOutcome): (r: Outcome)
    ensures AllTrimmable(text) ==> r == Outcome(agent, None, None)
    ensures !AllTrimmable(text) && Includes(Normalise(text), ActivationWord) ==>
              r == Outcome(Agent(false, agent.messages), Some(ActivationText), None)
    ensures IsConversational(text) && agent.muted ==> r == Outcome(agent, None, None)
    ensures IsConversational(text) && !agent.muted ==>
              var cleaned := Normalise(text);
              var history := agent.messages + [Message(User, cleaned)];
              var res := GetAnswer(cleaned, history, store, now, remote);
              && !r.agent.muted
              && r.agent.messages == history + [Message(Assistant, Render(res.answer))]
              && r.spoken == Some(Render(res.answer))
              && r.request == res.request
  {
    var cleaned := Normalise(text);
    if cleaned == [] then Outcome(agent, None, None)
    else if Includes(cleaned, ActivationWord) then
      Outcome(agent.(muted := false), Some(ActivationText), None)
    else if agent.muted then Outcome(agent, None, None)
    else
      var history := agent.messages + [Message(User, cleaned)];
      var res := GetAnswer(cleaned, history, store, now, remote);
      Outcome(agent.(messages := history + [Message(Assistant, Render(res.answer))]),
              Some(Render(res.answer)), res.request)
  }

  /** No utterance mutes the assistant, and history is only ever extended, never rewritten. */
  lemma HandleQueryNeverMutesOrForgets(agent: Agent, store: StatStore.Store, text: string, now: int,
                                       remote: RemoteOutcome)
    ensures var r := HandleQuery(agent, store, text, now, remote);
            && (r.agent.muted ==> agent.muted)
            && |agent.messages| <= |r.agent.messages|
            && r.agent.messages[..|agent.messages|] == agent.messages
  {
    var cleaned := Normalise(text);
    if cleaned != [] && !Includes(cleaned, ActivationWord) && !agent.muted {
      var history := agent.messages + [Message(User, cleaned)];
      var res := GetAnswer(cleaned, history, store, now, remote);
      var msgs := history + [Message(Assistant, Render(res.answer))];
      assert msgs[..|agent.messages|] == agent.messages;
    }
  }

  /** `toggleMute`: the explicit mute button. */
  function ToggleMute(agent: Agent): (r: Agent)
    ensures r.muted != agent.muted
    ensures r.messages == agent.messages
  {
    agent.(muted := !agent.muted)
  }

  lemma ToggleMuteInvolution(agent: Agent)
    ensures ToggleMute(ToggleMute(agent)) == agent
  {
  }

  /** A trimmed string whose ends are not whitespace is left alone by `trim`. */
  lemma TrimFixesTrimmed(s: string)
    requires s == [] || (!IsTrimmable(s[0]) && !IsTrimmable(s[|s| - 1]))
    ensures Trim(s) == s
  {
  }

  /** Normalising an already normalised text changes nothing. */
  lemma NormaliseIdempotent(text: string)
    ensures Normalise(Normalise(text)) == Normalise(text)
  {
    var t := Trim(text);
    var l := Lower(t);
    if l != [] {
      assert LowerChar(t[0]) == l[0] && LowerChar(t[|t| - 1]) == l[|l| - 1];
    }
    TrimFixesTrimmed(l);
    LowerIdempotent(t);
  }

  /** Durations of closed points do not depend on the clock. */
  lemma {:induction false} ClosedTotalIgnoresClock(points: seq<StatStore.PointRecord>, t1: int, t2: int)
    requires forall k :: 0 <= k < |points| ==> points[k].end.Some?
    ensures TotalDuration(points, t1) == TotalDuration(points, t2)
  {
    if points != [] {
      ClosedTotalIgnoresClock(points[..|points| - 1], t1, t2);
    }
  }

  /** The average lies between the shortest and the longest duration: count * lo <= total <= count * hi. */
  lemma {:induction false} TotalWithinBounds(points: seq<StatStore.PointRecord>, now: int, lo: int, hi: int)
    requires forall k :: 0 <= k < |points| ==> lo <= Duration(points[k], now) <= hi
    ensures |points| * lo <= TotalDuration(points, now) <= |points| * hi
  {
    if points != [] {
      var n := |points|;
      TotalWithinBounds(points[..n - 1], now, lo, hi);
      assert n * lo == (n - 1) * lo + lo;
      assert n * hi == (n - 1) * hi + hi;
    }
  }

  /** One step of a conversation: the next recognised utterance with its clock and proxy outcome. */
  datatype Query = Query(text: string, now: int, remote: RemoteOutcome)

  /** The agent after handling one query. */
  function Step(agent: Agent, store: StatStore.Store, q: Query): Agent {
    HandleQuery(agent, store, q.text, q.now, q.remote).agent
  }

  /** The agent after handling `qs` in order. */
  function Run(agent: Agent, store: StatStore.Store, qs: seq<Query>): Agent {
    if qs == [] then agent else Step(Run(agent, store, qs[..|qs| - 1]), store, qs[|qs| - 1])
  }

  /** One conversational turn on an unmuted agent appends a user turn and an assistant turn. */
  lemma ConversationalStep(agent: Agent, store: StatStore.Store, q: Query)
    requires !agent.muted && IsConversational(q.text)
    ensures var r := Step(agent, store, q);
            && !r.muted
            && |r.messages| == |agent.messages| + 2
            && r.messages[..|agent.messages|] == agent.messages
            && r.messages[|agent.messages|] == Message(User, Normalise(q.text))
            && r.messages[|agent.messages| + 1].role == Assistant
  {
  }

  /**
   * `msgs` is `base` followed by one user turn carrying `users[k]` and one
   * assistant turn for each k, in order.
   */
  predicate ExtendsByPairs(base: seq<Message>, msgs: seq<Message>, users: seq<string>) {
    && |msgs| == |base| + 2 * |users|
    && msgs[..|base|] == base
    && forall k :: 0 <= k < |users| ==>
         && msgs[|base| + 2 * k] == Message(User, users[k])
         && msgs[|base| + 2 * k + 1].role == Assistant
  }

  lemma ExtendsByOneMorePair(base: seq<Message>, prev: seq<Message>, users: seq<string>,
                             next: seq<Message>, u: string)
    requires ExtendsByPairs(base, prev, users)
    requires |next| == |prev| + 2 && next[..|prev|] == prev
    requires next[|prev|] == Message(User, u) && next[|prev| + 1].role == Assistant
    ensures ExtendsByPairs(base, next, users + [u])
  {
  }

  /** The normalised texts of the queries, in order. */
  function UserTexts(qs: seq<Query>): (r: seq<string>)
    ensures |r| == |qs|
  {
    if qs == [] then [] else UserTexts(qs[..|qs| - 1]) + [Normalise(qs[|qs| - 1].text)]
  }

  predicate AllConversational(qs: seq<Query>) {
    forall k :: 0 <= k < |qs| ==> IsConversational(qs[k].text)
  }

  /**
   * N conversational turns on an unmuted agent grow the history by exactly
   * 2N messages, a user turn (the normalised text) then an assistant turn for
   * each, in call order, and the agent stays unmuted.
   */
  lemma {:induction false} ConversationGrowsByPairs(agent: Agent, store: StatStore.Store, qs: seq<Query>)
    requires !agent.muted
    requires AllConversational(qs)
    ensures !Run(agent, store, qs).muted
    ensures ExtendsByPairs(agent.messages, Run(agent, store, qs).messages, UserTexts(qs))
  {
    if qs == [] {
      assert agent.messages[..|agent.messages|] == agent.messages;
    } else {
      var n := |qs|;
      var init := qs[..n - 1];
      assert AllConversational(init) by {
        forall k | 0 <= k < |init| ensures IsConversational(init[k].text) {
          assert init[k] == qs[k];
        }
      }
      ConversationGrowsByPairs(agent, store, init);
      var prev := Run(agent, store, init);
      ConversationalStep(prev, store, qs[n - 1]);
      ExtendsByOneMorePair(agent.messages, prev.messages, UserTexts(init),
                           Run(agent, store, qs).messages, Normalise(qs[n - 1].text));
    }
  }

  /** "duración punto" asks for the point duration. */
  lemma DurationQuestionMatches()
    ensures AsksPointDuration("duración punto")
  {
    var s := "duración punto";
    assert MatchesAt(s, DurationHead, 0) by {
      forall k | 0 <= k < |DurationHead| ensures ClassMatch(s[k], DurationHead[k]) {
        assert s[k] == DurationHead[k][|DurationHead[k]| - 1];
      }
    }
    assert MatchesAt(s, DurationTail, 9) by {
      forall k | 0 <= k < |DurationTail| ensures ClassMatch(s[9 + k], DurationTail[k]) {
        assert s[9 + k] == DurationTail[k][0];
      }
    }
  }

  /** 6 s over two points renders as "3.0". */
  lemma SixSecondsOverTwo()
    ensures Fixed1OfThousandths(6000, 2) == "3.0"
  {
    assert (6000 + 50 * 2) / (100 * 2) == 30;
    assert NatToString(3) == "3";
  }

  /** Two points of 2 s and 4 s are reported as an average of "3.0" seconds. */
  lemma AverageOfTwoPoints(now: int, remote: RemoteOutcome)
    ensures var store := StatStore.Store([StatStore.PointRecord(0, Some(2000)), StatStore.PointRecord(0, Some(4000))], [], []);
            Render(GetAnswer("duración punto", [], store, now, remote).answer)
              == "La duración promedio de los puntos es 3.0 segundos."
  {
    DurationQuestionMatches();
    var points := [StatStore.PointRecord(0, Some(2000)), StatStore.PointRecord(0, Some(4000))];
    var store := StatStore.Store(points, [], []);
    assert points[..1] == [points[0]];
    assert points[..1][..0] == [];
    assert TotalDuration(points[..1], now) == 2000;
    assert TotalDuration(points, now) == 6000;
    var a := GetAnswer("duración punto", [], store, now, remote).answer;
    assert a == AveragePointDuration(6000, 2);
    SixSecondsOverTwo();
  }

  /** Serves of 120, 180 and 95 km/h: the answer is the maximum, 180. */
  lemma MaxOfThreeServes(now: int, remote: RemoteOutcome, t1: int, t2: int, t3: int)
    ensures var serves := [StatStore.ServeRecord(120, t1), StatStore.ServeRecord(180, t2), StatStore.ServeRecord(95, t3)];
            GetAnswer("velocidad saque", [], StatStore.Store([], serves, []), now, remote).answer == MaxServeSpeed(180)
  {
    var serves := [StatStore.ServeRecord(120, t1), StatStore.ServeRecord(180, t2), StatStore.ServeRecord(95, t3)];
    var s := "velocidad saque";
    assert !AsksPointDuration(s) by {
      assert forall k :: 0 <= k < |s| ==> LowerChar(s[k]) != 'p';
      forall j | 0 <= j <= |s| ensures !MatchesAt(s, DurationTail, j) {
        if j < |s| {
          assert DurationTail[0] == ['p'];
          assert !ClassMatch(s[j], DurationTail[0]);
        }
      }
    }
    assert MatchesAt(s, SpeedHead, 0) by {
      forall k | 0 <= k < |SpeedHead| ensures ClassMatch(s[k], SpeedHead[k]) {
        assert s[k] == SpeedHead[k][0];
      }
    }
    assert MatchesAt(s, SpeedTail, 10) by {
      forall k | 0 <= k < |SpeedTail| ensures ClassMatch(s[10 + k], SpeedTail[k]) {
        assert s[10 + k] == SpeedTail[k][0];
      }
    }
    assert AsksServeSpeed(s);
    var a := GetAnswer("velocidad saque", [], StatStore.Store([], serves, []), now, remote).answer;
    assert a.MaxServeSpeed? && serves[1].speed <= a.kmh;
    var i :| 0 <= i < |serves| && serves[i].speed == a.kmh;
  }

  /**
   * A question that names both the point duration and the serve speed is
   * answered from the points, without asking the model.
   */
  lemma DurationBeforeServeSpeed(store: StatStore.Store, now: int, remote: RemoteOutcome)
    ensures var r := GetAnswer("velocidad de saque y duración del punto", [], store, now, remote);
            && r.request.None?
            && (r.answer.NoPointData? || r.answer.AveragePointDuration?)
  {
    var s := "velocidad de saque y duración del punto";
    assert MatchesAt(s, DurationHead, 21) by {
      forall k | 0 <= k < |DurationHead| ensures ClassMatch(s[21 + k], DurationHead[k]) {
        assert s[21 + k] == DurationHead[k][|DurationHead[k]| - 1];
      }
    }
    assert MatchesAt(s, DurationTail, 34) by {
      forall k | 0 <= k < |DurationTail| ensures ClassMatch(s[34 + k], DurationTail[k]) {
        assert s[34 + k] == DurationTail[k][0];
      }
    }
    assert AsksPointDuration(s);
  }

  /** Lower-casing "Desactivar" leaves "activar" at positions 3 to 9. */
  lemma DesactivarEndsInActivar()
    ensures Lower("Desactivar")[3..10] == ActivationWord
  {
  }

  /** "Desactivar" ("switch off") is not blank and its normalised form contains the activation word. */
  lemma DesactivarContainsActivationWord()
    ensures !AllTrimmable("Desactivar") && Includes(Normalise("Desactivar"), ActivationWord)
  {
    TrimFixesTrimmed("Desactivar");
    DesactivarEndsInActivar();
    assert !IsTrimmable("Desactivar"[0]);
    var n := Normalise("Desactivar");
    assert n == Lower("Desactivar");
    assert OccursAt(n, ActivationWord, 3);
  }

  /** Lower-casing the shouted "ACTIVAR" gives the activation word. */
  lemma ShoutedActivarLowers()
    ensures Lower("ACTIVAR") == ActivationWord
  {
    var s := "ACTIVAR";
    forall k | 0 <= k < |s| ensures Lower(s)[k] == ActivationWord[k] {
      assert IsCapital(s[k]);
    }
  }

  /** "ACTIVAR" has nothing to trim, so it normalises to the activation word. */
  lemma ShoutedActivarNormalises()
    ensures Normalise("ACTIVAR") == ActivationWord
  {
    TrimFixesTrimmed("ACTIVAR");
    ShoutedActivarLowers();
  }

  /** "ACTIVAR" is not blank and its normalised form contains the activation word. */
  lemma ShoutedActivarContainsActivationWord()
    ensures !AllTrimmable("ACTIVAR") && Includes(Normalise("ACTIVAR"), ActivationWord)
  {
    ShoutedActivarNormalises();
    assert OccursAt(ActivationWord, ActivationWord, 0);
    assert !IsTrimmable("ACTIVAR"[0]);
  }

  /** Case does not matter: the shouted "ACTIVAR" unmutes a muted assistant like the lower-case word. */
  lemma ShoutedActivarUnmutes(messages: seq<Message>, store: StatStore.Store, now: int, remote: RemoteOutcome)
    ensures HandleQuery(Agent(true, messages), store, "ACTIVAR", now, remote)
              == Outcome(Agent(false, messages), Some(ActivationText), None)
  {
    ShoutedActivarContainsActivationWord();
  }

  /** So "Desactivar" unmutes a muted assistant and speaks the confirmation, leaving the history alone. */
  lemma DesactivarUnmutes(messages: seq<Message>, store: StatStore.Store, now: int, remote: RemoteOutcome)
    ensures HandleQuery(Agent(true, messages), store, "Desactivar", now, remote)
              == Outcome(Agent(false, messages), Some(ActivationText), None)
  {
    DesactivarContainsActivationWord();
  }
}

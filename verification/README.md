# Tennis analytics demo — decision logic in Dafny

This project models the small amount of sequential decision logic inside a
tennis demo web app. The app shows a live match with a simulated swing
detector and scoreboard. It has a Spanish voice assistant that answers
questions from an in-memory statistics store or forwards them to a hosted
text-generation model through a server route. It also has a home page with a
metrics carousel, a technique-training page and a match-statistics page.

The operations are pure functions over immutable datatypes, apart from three
methods whose loops are proved against functional definitions:
`MatchStats.GenerateZones`, `JsText.IndexOf` and `JsText.TestSpan`. The clock
(`Date.now()`), the random draws (`Math.random()`) and the outcome of network
calls are parameters.

Each source file has its own module:

| module | file | what it holds |
|---|---|---|
| `StatStore` | `stat_store.dfy` | `lib/statStore.ts`: the append-only log of points, serves and trajectories |
| `JsText` | `js_text.dfy` | the JavaScript string operations the voice assistant relies on: `trim`, `toLowerCase`, `includes`, the `/A.*B/i` patterns, `String(n)` and `toFixed(1)` |
| `VoiceAgent` | `voice_agent.dfy` | `hooks/useVoiceAgent.ts`: `handleQuery`, `getAnswer`, `toggleMute` |
| `VoiceProxy` | `voice_proxy.dfy` | `app/api/voice-agent/route.ts`: the upstream request and the answer extraction |
| `LiveMatch` | `live_match.dfy` | `app/match/page.tsx`: scoring, score display, settings, point log and grouping, the swing simulation |
| `HomePage` | `home_page.dfy` | `app/page.tsx`: carousel index and window, sensor flags |
| `Training` | `training.dfy` | `app/backend/frontend/training/page.tsx`: skeletons, stroke poses, critical angles, accuracy bands |
| `MatchStats` | `match_stats.dfy` | `app/backend/frontend/match-stats/page.tsx`: impact zones, radar chart order, tip cards |
| `Wrappers` | `wrappers.dfy` | the `Option` type |

Behaviour of the code worth noting, which the model follows:

- The server route never mirrors an upstream failure status. It answers 200
  with `{answer}` whenever the model's reply parses.
- The route does not short-circuit when the key is missing. It sends the
  request without an `Authorization` header.
- The route reads only `prompt`. The conversation history is sent by the
  client but never reaches the model.
- An ok response relays `data.answer` unchanged. There is no "empty response"
  fallback on the client.
- The activation test is a substring test, so "desactivar" also unmutes.

JavaScript semantics are written out where they decide a branch:

- `!p.end` treats an end time of 0 as still open.
- `??` keeps an end time of 0.
- An empty string is falsy, so an empty `generated_text` falls back to the
  apology.
- `trim` removes the ECMAScript whitespace and line-terminator set.
- The `.` of a regular expression does not cross a line terminator.

## Model

| member | source | states |
|---|---|---|
| StatStore.StartPoint | lib/statStore.ts:20-22 | exactly one record is appended, starting at the given time with no end; earlier records and the serve and trajectory logs are unchanged |
| StatStore.EndPoint | lib/statStore.ts:24-27 | on an empty log, or when the last record is closed, nothing changes; otherwise only the last record gains the end time; the length, all earlier records and the other logs are unchanged |
| StatStore.RecordServe | lib/statStore.ts:29-31 | appends `{speed, timestamp: now}` to the serve log and touches nothing else |
| StatStore.RecordTrajectory | lib/statStore.ts:33-35 | appends one record whose positions are exactly the given ones; points and serves unchanged |
| StatStore.EndPointIdempotent | lib/statStore.ts:26 | a second `endPoint` after one at a non-zero time leaves the store unchanged |
| StatStore.EndPointAtZeroIsOverwritten | lib/statStore.ts:26 | an end time of 0 is falsy, so a later `endPoint` overwrites it: idempotence needs a non-zero clock |
| StatStore.EndPointNeverClosesEarlier | lib/statStore.ts:25-26 | after two `startPoint`s and one `endPoint`, the first new record is still open and only the second is closed |
| StatStore.StartThenEndClosesNewPoint | lib/statStore.ts:20-27 | `startPoint` then a later `endPoint` adds exactly one record, closed after it started, and keeps every earlier record |
| JsText.TrimStart | hooks/useVoiceAgent.ts:49 | the result is a suffix of the input; everything removed is whitespace; the result does not start with whitespace |
| JsText.TrimEnd | hooks/useVoiceAgent.ts:49 | the result is a prefix of the input; everything removed is whitespace; the result does not end with whitespace |
| JsText.Trim | hooks/useVoiceAgent.ts:49 | the result is a contiguous slice with only whitespace cut off either side, has no whitespace at either end, and is empty exactly when the input is all whitespace |
| JsText.TrimSliceOf | hooks/useVoiceAgent.ts:49 | cutting a whitespace prefix and then a whitespace suffix leaves a trimmed slice, empty exactly when the whole input is whitespace |
| JsText.LowerChar | hooks/useVoiceAgent.ts:49 | a capital (`IsCapital`: A-Z and the Latin-1 capitals) becomes its small letter 32 code points on, any other character is unchanged, no capital is left, and whitespace and line terminators are neither made nor lost |
| JsText.Lower | hooks/useVoiceAgent.ts:49 | the length is kept and every character is lowered in place |
| JsText.LowerIdempotent | hooks/useVoiceAgent.ts:49 | lower-casing twice is the same as once |
| JsText.IndexOf | hooks/useVoiceAgent.ts:52 | returns the first position where the word occurs, or -1 exactly when it does not occur |
| JsText.LiteralMatchesLowered | hooks/useVoiceAgent.ts:75 | a literal word in a pattern (`Literal`) matches at a position exactly when the text there, lower-cased, equals the word lower-cased |
| JsText.TestSpan | hooks/useVoiceAgent.ts:75 | the loop answers true exactly when some head match is followed, with no line terminator between, by a tail match, ignoring case |
| JsText.DigitChar | hooks/useVoiceAgent.ts:90 | the character is the decimal digit of the given value |
| JsText.NatToString | hooks/useVoiceAgent.ts:90 | a non-empty run of digits with no leading zero |
| JsText.NatToStringRoundTrip | hooks/useVoiceAgent.ts:90 | reading the digits back gives the number |
| JsText.NatToStringInjective | hooks/useVoiceAgent.ts:90 | different numbers render differently |
| JsText.IntToString | app/match/page.tsx:206 | a leading minus exactly for negatives, then the digits of the magnitude |
| JsText.IntToStringInjective | app/match/page.tsx:206 | different integers render differently |
| JsText.Fixed1OfThousandths | hooks/useVoiceAgent.ts:77-82 | the rendering starts with a minus exactly for a negative mean; after it comes "digits.digit", whose value in tenths is the nearest tenth to the magnitude of total/(1000·count), ties going up |
| JsText.DivNat | hooks/useVoiceAgent.ts:80-81 | the quotient is the largest q with d·q ≤ n |
| JsText.Fixed1Magnitude | hooks/useVoiceAgent.ts:80-82 | for a non-negative total the rendering is "digits.digit", and the tenths it denotes are the nearest tenth to total/(1000·count), ties going up |
| JsText.TenthsOfRendering | hooks/useVoiceAgent.ts:82 | reading back the digits of q, a point and the digit r gives 10·q + r tenths |
| JsText.NearestTenthUnique | hooks/useVoiceAgent.ts:80-82 | at most one count of tenths is nearest to a value |
| JsText.Fixed1Nearest | hooks/useVoiceAgent.ts:80-82 | whatever count of tenths is nearest to total/(1000·count) is the one the rendering denotes |
| VoiceAgent.Normalise | hooks/useVoiceAgent.ts:49-50 | never longer than the input; empty exactly when the input is all whitespace |
| VoiceAgent.MaxSpeed | hooks/useVoiceAgent.ts:87-89 | the result is one of the serve speeds and no serve speed exceeds it |
| VoiceAgent.GetAnswer | hooks/useVoiceAgent.ts:74-105 | the remote model is asked exactly when neither pattern (`AsksPointDuration`, `AsksServeSpeed`) matches; duration wins over serve speed; no points gives the no-data message, else the mean over all points with open points measured to now; no serves gives the no-serves message, else the maximum speed; the remote answer is relayed on ok, else the error message |
| VoiceAgent.HandleQuery | hooks/useVoiceAgent.ts:48-65 | blank input changes nothing; text with "activar" unmutes and speaks the confirmation with no history or request, checked before the mute; while muted nothing happens; otherwise exactly the user turn then the assistant turn are appended, the answer is spoken and the request, if any, is the one `getAnswer` made |
| VoiceAgent.HandleQueryNeverMutesOrForgets | hooks/useVoiceAgent.ts:48-65 | no utterance mutes the assistant, and the history is only ever extended, never rewritten |
| VoiceAgent.ToggleMute | hooks/useVoiceAgent.ts:107 | flips the mute flag and keeps the history |
| VoiceAgent.ToggleMuteInvolution | hooks/useVoiceAgent.ts:107 | toggling twice restores the agent |
| VoiceAgent.TrimFixesTrimmed | hooks/useVoiceAgent.ts:49 | text with no whitespace at either end is its own trim |
| VoiceAgent.NormaliseIdempotent | hooks/useVoiceAgent.ts:49 | normalising normalised text changes nothing |
| VoiceAgent.ClosedTotalIgnoresClock | hooks/useVoiceAgent.ts:76-81 | when every point is closed, the total (`TotalDuration`, the sum of each point's `Duration`, its end or else now, minus its start) does not depend on the clock |
| VoiceAgent.TotalWithinBounds | hooks/useVoiceAgent.ts:80-81 | if every duration is between lo and hi, the total is between count·lo and count·hi, so the mean is too |
| VoiceAgent.ConversationalStep | hooks/useVoiceAgent.ts:60-64 | an unmuted conversational turn appends the user turn with the cleaned text and then an assistant turn |
| VoiceAgent.ExtendsByOneMorePair | hooks/useVoiceAgent.ts:60-63 | a history extended by pairs stays so after one more user/assistant pair |
| VoiceAgent.UserTexts | hooks/useVoiceAgent.ts:60 | one cleaned user text per query |
| VoiceAgent.ConversationGrowsByPairs | hooks/useVoiceAgent.ts:60-63 | N unmuted conversational queries extend the history by N pairs, in call order, each user turn carrying its cleaned text, and leave the agent unmuted |
| VoiceAgent.DurationQuestionMatches | hooks/useVoiceAgent.ts:75 | "duración punto" matches the duration pattern |
| VoiceAgent.SixSecondsOverTwo | hooks/useVoiceAgent.ts:80-82 | 6000 ms over two points renders "3.0" |
| VoiceAgent.AverageOfTwoPoints | hooks/useVoiceAgent.ts:75-83 | the duration template (`Render`): points of 2 s and 4 s are answered "La duración promedio de los puntos es 3.0 segundos." |
| VoiceAgent.MaxOfThreeServes | hooks/useVoiceAgent.ts:86-90 | the serve-speed template (`Render`): serves of 120, 180 and 95 km/h are answered with a maximum of 180 |
| VoiceAgent.DurationBeforeServeSpeed | hooks/useVoiceAgent.ts:75-86 | a question matching both patterns is answered locally as a duration question, with no remote request |
| VoiceAgent.ShoutedActivarLowers | hooks/useVoiceAgent.ts:49 | lower-casing "ACTIVAR" gives "activar" |
| VoiceAgent.ShoutedActivarNormalises | hooks/useVoiceAgent.ts:49 | "ACTIVAR" has nothing to trim and normalises to "activar" |
| VoiceAgent.ShoutedActivarContainsActivationWord | hooks/useVoiceAgent.ts:49-52 | "ACTIVAR" is not blank and its cleaned form contains "activar" |
| VoiceAgent.ShoutedActivarUnmutes | hooks/useVoiceAgent.ts:48-56 | case does not matter: the shouted "ACTIVAR" unmutes a muted agent, speaks the confirmation and keeps the history |
| VoiceAgent.DesactivarEndsInActivar | hooks/useVoiceAgent.ts:49-52 | lower-casing "Desactivar" leaves "activar" at positions 3 to 9 |
| VoiceAgent.DesactivarContainsActivationWord | hooks/useVoiceAgent.ts:49-52 | "Desactivar" is not blank and its cleaned form contains "activar" |
| VoiceAgent.DesactivarUnmutes | hooks/useVoiceAgent.ts:52-56 | "Desactivar" (switch off) therefore unmutes a muted agent, speaks the confirmation and keeps the history |
| VoiceProxy.Property | app/api/voice-agent/route.ts:20-22 | a property is present exactly for an object that has that key, and its value is that key's value |
| VoiceProxy.BuildRequest | app/api/voice-agent/route.ts:6-16 | POST to the model URL with a JSON content type; an `Authorization: Bearer <key>` header exactly when the key is set and non-empty; no other headers; the body holds `parameters` with 50 new tokens, and `inputs` exactly when the prompt is present, equal to it |
| VoiceProxy.ExtractAnswer | app/api/voice-agent/route.ts:18-24 | the answer is always truthy; a list reply yields its first element's truthy generated text, an object its own, anything else the apology |
| VoiceProxy.ReplyShapesAgree | app/api/voice-agent/route.ts:20-23 | a truthy generated text is returned whether it comes in a list or a bare object |
| VoiceProxy.Post | app/api/voice-agent/route.ts:3-26 | a null or unparseable body throws before any request; otherwise the request is built from `prompt` alone; a failed upstream call throws; a parsed reply is answered 200 with `{answer}` |
| VoiceProxy.HistoryIgnored | app/api/voice-agent/route.ts:4 | bodies that agree on `prompt` yield the same exchange whatever their history |
| VoiceProxy.EmptyGeneratedTextFallsBack | app/api/voice-agent/route.ts:19-21 | an empty generated text is falsy and the apology is returned |
| VoiceProxy.UpstreamErrorAnsweredWith200 | app/api/voice-agent/route.ts:18-25 | an upstream error payload is answered with status 200 and the apology |
| LiveMatch.Opponent | app/match/page.tsx:142 | the opponent is the other player |
| LiveMatch.SetsLed | app/match/page.tsx:154 | the number of sets led never exceeds the number of sets |
| LiveMatch.UpdateScore | app/match/page.tsx:137-176 | the three sets and a current set in 0..2 are kept; without a game won only the point score changes; a game won resets the score, adds one game in the current set only, advances the game counter and swaps the server; the match ends, with that winner, exactly on a game won that wins the set (`WinsGame`, `WinsSet`: at least 4 points or 6 games and a lead of two) and makes them lead two sets; the current set advances exactly on a set won that does not, while a set remains |
| LiveMatch.Play | app/match/page.tsx:137-176 | any run of points keeps the scoreboard well formed |
| LiveMatch.CurrentSetStaysInRange | app/match/page.tsx:156-162 | from the start, the current set stays in 0..2 and never goes back |
| LiveMatch.DeuceNeedsTwoClearPoints | app/match/page.tsx:142 | from 3-3 one point does not win the game, two in a row do, and one each does not |
| LiveMatch.SixAllDoesNotEndSet | app/match/page.tsx:149-152 | at 6-6 in games, winning a game neither advances the set nor ends the match |
| LiveMatch.GameScoreDisplay | app/match/page.tsx:178-181 | "0", "15" and "30" exactly at zero, one and two points, and "40" exactly from three points on |
| LiveMatch.GameScoreDisplayDistinguishesUpToForty | app/match/page.tsx:178-181 | two counts display the same exactly when equal or both at least three |
| LiveMatch.ToggleSetting | app/match/page.tsx:187-192 | flips the chosen switch and leaves every other switch as it was |
| LiveMatch.SettingsExtensional | app/match/page.tsx:59-64 | settings that agree on every switch are equal |
| LiveMatch.ToggleSettingInvolution | app/match/page.tsx:187-192 | toggling the same switch twice restores the settings |
| LiveMatch.ToggleSettingsCommute | app/match/page.tsx:187-192 | toggles of two switches commute |
| LiveMatch.EndMatch | app/match/page.tsx:194-197 | the match ends; Lucia wins exactly when she strictly leads the first set, otherwise Alex; nothing else changes |
| LiveMatch.PointDescription | app/match/page.tsx:199-207 | starts with "Punto " and ends with the label of the point kind (`KindLabel`), "Winner" when there is none |
| LiveMatch.DescriptionLayout | app/match/page.tsx:206 | the number ends at the first space after "Punto ", and the label is what follows the separator |
| LiveMatch.PointDescriptionDeterminesPoint | app/match/page.tsx:199-207 | equal descriptions mean equal point numbers and equal labels |
| LiveMatch.PointsOfGame | app/match/page.tsx:210-219 | a game's list holds only points of that game, each from the log |
| LiveMatch.PointsOfGameMembership | app/match/page.tsx:210-219 | a point is in a game's list exactly when it was logged under that game |
| LiveMatch.PointsOfGameAppend | app/match/page.tsx:210-219 | grouping distributes over concatenation, so play order is kept inside each game |
| LiveMatch.GroupByGameIsFilter | app/match/page.tsx:210-219 | the reduce (`GroupByGame`) has one entry per game that occurs, and each is that game's points in play order |
| LiveMatch.PointKindOf | app/match/page.tsx:110-111 | each quarter of the draw picks one of the four point kinds, in list order |
| LiveMatch.SwingSpeed | app/match/page.tsx:84-85 | serves are 120..199 km/h, strokes 80..129 km/h |
| LiveMatch.FastSwingIsServe | app/match/page.tsx:84-85 | a speed above 129 km/h can only be a serve |
| LiveMatch.DetectSwing | app/match/page.tsx:81-99 | a draw of at most 0.85 changes nothing; otherwise a point is opened, one trajectory is logged at the swing's position, a serve is recorded exactly when the swing is a serve, earlier points and trajectories are kept, the swing has the drawn speed (`SwingSpeed`) and the tick's time, is a second serve exactly for a serve draw whose type draw exceeds 0.7, and lies in the server's half |
| LiveMatch.RecordedServesInRange | app/match/page.tsx:84-98 | from an empty store, every serve speed the simulation (`Simulate`, detection ticks and point conclusions in order) records is in 120..199 |
| LiveMatch.ResolvePoint | app/match/page.tsx:107-125 | one point is logged under the current game and point number, with the tick's time as id, its winner (`PointWinner`: Lucia exactly when the draw exceeds 0.5) and the kind its draw picks (`PointKindOf`); the point counter advances and the score update is applied |
| HomePage.Prev | app/page.tsx:518 | the index never goes below 0 and steps down by one otherwise |
| HomePage.Next | app/page.tsx:526 | the index never exceeds length − 3 = 2 and steps up by one otherwise |
| HomePage.IndexStaysInWindow | app/page.tsx:349 | from 0, any sequence of presses keeps the index in 0..2 |
| HomePage.ButtonsStopAtEnds | app/page.tsx:518-526 | left at 0 and right at 2 do nothing |
| HomePage.NextThenPrev | app/page.tsx:518-526 | right then left returns to the same index when right moved |
| HomePage.Slice | app/page.tsx:534 | with in-range bounds the slice is the subsequence; it is never longer than the input |
| HomePage.WindowHasThreeMetrics | app/page.tsx:534 | for an index in 0..2 exactly the three consecutive metrics from the index are shown |
| HomePage.WindowShortPastEnd | app/page.tsx:534 | at index 3 only two metrics would show, which the right-button clamp prevents |
| HomePage.Connect | app/page.tsx:357-361 | a timer sets exactly its own flag and keeps the others |
| HomePage.ConnectAllMonotone | app/page.tsx:357-361 | after any timers a flag is set exactly when it was set before or its timer fired: flags only go from false to true |
| HomePage.AllTimersConnectEverything | app/page.tsx:344-361 | once all three timers fired, in any order, every sensor shows connected |
| Training.SkeletonsPlaceEveryJoint | app/backend/frontend/training/page.tsx:13-55 | both skeletons place every joint, so each bone end is found |
| Training.BoneOf | app/backend/frontend/training/page.tsx:31-46 | names a bone that ends at the given joint |
| Training.EveryJointIsDrawnAsBone | app/backend/frontend/training/page.tsx:13-46 | every joint ends some bone |
| Training.ProfessionalDiffersAtFourJoints | app/backend/frontend/training/page.tsx:49-55 | the professional pose has the same joints and differs exactly at the right elbow, right wrist and both shoulders |
| Training.Pose | app/backend/frontend/training/page.tsx:135-146 | every pose has all the joints; forehand and serve move only the right elbow and wrist, backhand only the left ones; a serve raises the right arm to at least 1.3 and 1.4 |
| Training.VolleyAndSmashStayNeutral | app/backend/frontend/training/page.tsx:135-146 | volley and smash leave the neutral pose |
| Training.Reroll | app/backend/frontend/training/page.tsx:236-240 | keeps ideal and tolerance; the new value lies within half the spread of the ideal |
| Training.BandBounds | app/backend/frontend/training/page.tsx:236-240 | a shifted draw scaled by the spread lies in [−spread/2, spread/2) |
| Training.RerollAngles | app/backend/frontend/training/page.tsx:235-241 | no ideal or tolerance changes on a tick |
| Training.TargetsNeverMove | app/backend/frontend/training/page.tsx:213-241 | after any ticks every ideal and tolerance is still the initial one |
| Training.AnglesAlwaysCorrect | app/backend/frontend/training/page.tsx:213-260 | every angle ever shown, initial or simulated, is within its tolerance of its ideal (`IsCorrect`) |
| Training.SimulatedAccuracy | app/backend/frontend/training/page.tsx:232 | the simulated accuracy lies in [0.6, 1.0) |
| Training.SkeletonGlow | app/backend/frontend/training/page.tsx:75-98 | success glow exactly above 0.9, error pulse exactly below 0.5, normal otherwise |
| Training.ErrorFeedbackUnreachable | app/backend/frontend/training/page.tsx:249 | no reachable accuracy triggers the vibration (`Vibrates`, below 0.5) or the red pulse |
| Training.ScoreColour | app/backend/frontend/training/page.tsx:385 | green exactly above 0.9, yellow exactly in (0.7, 0.9], red otherwise |
| Training.InitialScoreIsRedButNotError | app/backend/frontend/training/page.tsx:212 | the initial 0.7 shows red while the skeleton shows normal |
| Training.Percent | app/backend/frontend/training/page.tsx:388 | the shown percentage is the nearest integer to accuracy·100, halves up |
| MatchStats.KindOf | app/backend/frontend/match-stats/page.tsx:85 | winner exactly when the first draw exceeds 0.7; error exactly when it does not and the second exceeds 0.8 |
| MatchStats.InsetCoordinate | app/backend/frontend/match-stats/page.tsx:82-83 | a coordinate lies in [0.1, 0.9) |
| MatchStats.MakeZone | app/backend/frontend/match-stats/page.tsx:80-86 | the zone carries its id, is well placed and has the type of its draws |
| MatchStats.GenerateZones | app/backend/frontend/match-stats/page.tsx:78-88 | 25 zones, ids 0..24 in order, each well placed with the type of its draws |
| MatchStats.ZoneCentreInsideCourt | app/backend/frontend/match-stats/page.tsx:133-134 | a well-placed zone's centre lies inside the court outline's 20-pixel margin |
| MatchStats.Scaled | app/backend/frontend/match-stats/page.tsx:133-134 | a fraction of a length lies between zero and the length |
| MatchStats.Radius | app/backend/frontend/match-stats/page.tsx:135 | the radius lies in [4, 12) |
| MatchStats.Alpha | app/backend/frontend/match-stats/page.tsx:139 | the opacity lies in [0.3, 1.0) |
| MatchStats.GreenIntensity | app/backend/frontend/match-stats/page.tsx:140 | a channel value in 100..254, the floor of 100 + 155·intensity |
| MatchStats.ZoneColour | app/backend/frontend/match-stats/page.tsx:142-151 | red 239 exactly for errors; winners and neutrals use the green channel |
| MatchStats.WinnerDrawnLikeNeutral | app/backend/frontend/match-stats/page.tsx:142-151 | winner and neutral zones are drawn in the same colour |
| MatchStats.LabelsMatchValues | app/backend/frontend/match-stats/page.tsx:224-257 | each radar value and its label share an index, and every axis appears |
| MatchStats.RadarWithinChart | app/backend/frontend/match-stats/page.tsx:224-239 | a radar whose values are all fractions places every vertex inside the outer pentagon |
| MatchStats.InitialRadarWithinChart | app/backend/frontend/match-stats/page.tsx:39-45 | every initial radar value places its vertex inside the outer pentagon |
| MatchStats.FlipCard | app/backend/frontend/match-stats/page.tsx:271-273 | length and order kept; a card flips exactly when its id matches; no other field changes |
| MatchStats.FlipTwiceRestores | app/backend/frontend/match-stats/page.tsx:272 | flipping the same id twice restores the list |
| MatchStats.FlipsCommute | app/backend/frontend/match-stats/page.tsx:272 | flips of two ids commute |
| MatchStats.FlipUnknownIdIsNoOp | app/backend/frontend/match-stats/page.tsx:272 | an id no card carries leaves the list unchanged |
| MatchStats.ClickFlipsOneCard | app/backend/frontend/match-stats/page.tsx:46-71 | the initial ids are distinct, so a click flips that card alone |

## Left out

- Speech recognition and synthesis are replaced by the `spoken` field of the outcome. The no-op when no synthesiser exists is not modelled.
- The `fetch` to the proxy and to the model becomes a parameter: `Ok(answer) | NotOk | Threw` on the client, `Parsed(data) | Failed` on the server.
- LiveMatch.DetectSwing: one `now` stands for the separate `Date.now()` reads in `startPoint`, the swing's id and timestamp, `recordServe` and the trajectory. In the source they can differ by the milliseconds the tick takes.
- StatStore.RecordServe: the speed is an `int`. `recordServe` accepts any number, but every caller passes a `Math.floor` result.
- VoiceAgent.GetAnswer: an ok reply whose `answer` is not a string, or is missing, is not modelled. The answer is taken to be a string.
- Overlapping remote calls are not modelled, nor the history order when replies arrive out of order.
- React's stale closures are not modelled. `handleQuery` sees the mute flag and history captured when recognition started, and the point-result timer sees the `currentGame` of its tick; the model uses the current state. The same goes for the `setScore` nested inside `setScore`'s updater.
- JsText.LowerChar lower-cases only ASCII and Latin-1 letters. `toLowerCase` covers all of Unicode, but the patterns only need these.
- JsText.TestSpan applies the `i` flag by comparing lower-cased characters, not by full Unicode case folding.
- Floating point is modelled as exact `real` arithmetic, with no IEEE rounding. Averages are integer milliseconds over a count, and `toFixed(1)` is exact rounding with ties up.
- `JSON.stringify` of the client request is not modelled; the proxy takes the parsed body. On the server side only its dropping of an `undefined` `inputs` is modelled.
- Timers, intervals and their interleaving are left out. The simulation is driven by an explicit event list, and removing a swing from the overlay after 3 s is not modelled.
- The detection loop stops once the match has ended (`if (matchEnded) return`). `LiveMatch.Simulate` covers the statistics store only and takes its events as given, so this guard lies outside it. A point-result timeout scheduled before the end can still fire afterwards. `LiveMatch.ResolvePoint`, like `updateScore`, does not check `ended`, so it models that late point too.
- `toLocaleTimeString` and the home page clock are locale formatting and are left out.
- All 3D scenes, canvas drawing, camera angles, `useFrame` animation and CSS are presentation. The model keeps only the numbers they derive: zone centre, radius, opacity, colour and the radar order. The extra glow on high-intensity zones is drawing only.
- Training.Pose takes `Math.sin` and `Math.cos` of the clock as parameters. Beyond the serve's raised arm, the model proves nothing about their range.
- `app/layout.tsx`, `next.config.mjs`, the UI wrapper components and `app/components/tennis-court-scene.tsx` are not part of this model.

# speedsolve.xyz competition core in Dafny

This project models the decision logic of the speedsolve.xyz competition service and of the
frontend helpers that display a race, and proves properties of it:

- **Matchmaking queue** (`queue.dfy`, module `SpeedcubeQueue`). There is one ordered queue per
  cube type. A newcomer is matched at once with a queued user whose average solve time is
  within 5000 ms; otherwise it is appended. A periodic sweep allows a gap that widens with the
  time the user has waited (5000 ms, then 10000 ms, then any) and pairs users off. The queue is
  a class whose `queues` map is updated in place. The clock is a `now` parameter, emitted
  matches go to a `matches` log, and the interval timer is the method `Tick`. `findMatches`
  walks the live array by position while matched users are spliced out of it, as a JavaScript
  array iterator does.
- **Cube preview** (`cube.dfy`, `cube_moves.dfy`, modules `CubePreview` and `CubeMoves`). This
  is the sticker model of CubePreview3d: `rotateFace`, the table-driven layer turn
  `rotateAnyFace` (a method that writes into copies of the faces in loops, proved equal to a
  sticker-wise specification), `processMove`, and the playing of a scramble from the initial
  state.
- **Scramble generator** (`scrambler.dfy`, `scramble_display.dfy`). Twenty tokens, with the
  random picks given as an input sequence of draws. Every generated token is a move the
  preview accepts.
- **Session state machines**:
  - `SoloManager` (`solo_manager.dfy`), the older `CompetitionStateManager`
    (`competition_manager.dfy`), and the REST competition router (`routes.dfy`).
  - Each is a class over the source's maps, with one method per handler.
  - Each method is proved equal to a pure handler function over the whole state, and the
    lemmas state what the handlers promise and the invariants they keep.
  - Messages sent over sockets are an appended log.
- **Frontend decision logic**: the race winner and time formatting (`multi_result.dfy`); the
  server-message reducer, socket guard and actions of the race hook (`multi_client.dfy`); the
  competition store (`competition_store.dfy`); the countdown message and key handlers
  (`multi_countdown.dfy`).
- **Shared modules**: `common.dfy` holds `Option`, the penalty kinds and the 2000 ms rule that
  reconciles client and server solve times. `text.dfy` holds whitespace splitting and joining.
  `records.dfy` holds JavaScript objects as insertion-ordered sequences of key/value entries.

"## Findings" lists three places where the source does not do what it evidently intends:
- The REST router's ready handler rejects the competition's own participants.
- The older competition manager uses enum names that it never declares.
- The countdown banner names statuses instead of peers.

Each is modelled as written, and a corrected version is modelled beside it.

## Model

| member | source | states |
|---|---|---|
| Common.ReconciledTime | services/competition/solo_manager.ts:130-136 | the recorded time is the client's time when it is within 2000 ms of the server-measured time, and the server time otherwise; either way it is within 2000 ms of the server time |
| SpeedcubeQueue.GetMaxTimeDiff | services/competition/speedcube_queue.ts:114-121 | the loop over TIME_DIFFS returns 5000 for a wait under 10000 ms, 10000 for a wait under 20000 ms, and Infinity otherwise |
| SpeedcubeQueue.MaxTimeDiffMonotone | services/competition/speedcube_queue.ts:18-22 | waiting longer never narrows the allowed gap |
| SpeedcubeQueue.FindIndex | services/competition/speedcube_queue.ts:68 | findIndex gives the first position holding the name, or -1 exactly when no entry holds it |
| SpeedcubeQueue.FindIndexNames | services/competition/speedcube_queue.ts:68-69 | findIndex reports -1 exactly when the name is not queued |
| SpeedcubeQueue.RemoveFirstSpec | services/competition/speedcube_queue.ts:66-72 | removeFromQueue deletes only the first entry with the name and keeps the rest in order; an absent name leaves the queue unchanged |
| SpeedcubeQueue.RemoveFirstUnique | services/competition/speedcube_queue.ts:66-72 | in a queue without repeated names, removing the first entry removes the name altogether and keeps everyone else in order |
| SpeedcubeQueue.RemoveBoth | services/competition/speedcube_queue.ts:102-104 | removing both users of a match leaves the queue without exactly those two names, still without repeats |
| SpeedcubeQueue.AppendUnique | services/competition/speedcube_queue.ts:63 | appending a user whose name is not queued keeps names unique |
| SpeedcubeQueue.FindBestMatch | services/competition/speedcube_queue.ts:124-151 | the linear scan returns the user at the index the best-match specification picks, or null |
| SpeedcubeQueue.ScanFromSpec | services/competition/speedcube_queue.ts:127-149 | from any position, the rest of the scan returns the first zero-average shortcut, or else the closest candidate within the bound (earliest on ties), or null when there is no candidate |
| SpeedcubeQueue.BestMatchSpec | services/competition/speedcube_queue.ts:124-151 | never the searching user nor an already-matched one. With a zero average on either side, the first eligible user in queue order. Otherwise the eligible user within maxTimeDiff with the strictly smallest gap (earliest on ties). Null exactly when no eligible user is within the bound |
| SpeedcubeQueue.EnqueuedSpec | services/competition/speedcube_queue.ts:43-64 | addToQueue keeps names unique. It emits one match exactly when findBestMatch, at the allowance for a wait of 0, finds someone in the queue without the user's earlier entry; the partner is that user, and BestMatchSpec says who it is. The match has max_queue_time 0 and leaves neither user queued. Otherwise it emits nothing, and the queue is the old one without the user's earlier entry, with the new entry last |
| SpeedcubeQueue.ImmediateMatchBoundary | services/competition/speedcube_queue.ts:56-63 | with one queued user and non-zero averages, a newcomer is matched at once exactly when the gap is at most 5000 ms, and is otherwise appended |
| SpeedcubeQueue.SweepFromSpec | services/competition/speedcube_queue.ts:83-97 | from any position of the live queue, no user is in two matches, every matched user was queued, every match has the sweep's cube type, and the queue afterwards is the old one without exactly the matched users |
| SpeedcubeQueue.SweepSpec | services/competition/speedcube_queue.ts:75-98 | findMatches changes nothing with fewer than two users. Otherwise no user is in two matches, matched users were queued, and the queue loses exactly the matched users and keeps unique names |
| SpeedcubeQueue.SweepAllowed | services/competition/speedcube_queue.ts:83-97 | every match one findMatches run emits pairs two queued users and records the first user's wait as max_queue_time. Their gap is within getMaxTimeDiff of that wait, unless one of them has average 0 |
| SpeedcubeQueue.TwoUserSweep | services/competition/speedcube_queue.ts:83-97 | on two users, the first is matched when the gap is within its own wait level, otherwise the second when within the second's level, otherwise nobody |
| SpeedcubeQueue.SweepLevelTwo | services/competition/speedcube_queue.ts:88-96 | a gap above 5000 ms stays unmatched while both have waited under 10 s, and a gap of at most 10000 ms is matched once the first user has waited 10 s |
| SpeedcubeQueue.SweepLevelThree | services/competition/speedcube_queue.ts:88-96 | a gap above 10000 ms stays unmatched while both have waited under 20 s, and any gap is matched once the first user has waited 20 s |
| SpeedcubeQueue.Queue.constructor | services/competition/speedcube_queue.ts:26-32 | only the 3x3 queue exists, empty, and no match has been emitted |
| SpeedcubeQueue.Queue.GetQueue | services/competition/speedcube_queue.ts:35-37 | the returned copy has no repeated names |
| SpeedcubeQueue.Queue.GetQueueLength | services/competition/speedcube_queue.ts:39-41 | the length of the queue getQueue returns |
| SpeedcubeQueue.Queue.RemoveFromQueue | services/competition/speedcube_queue.ts:66-72 | only this cube type's queue changes; it loses the first entry with the name, which is every entry with it; no match is emitted |
| SpeedcubeQueue.Queue.CreateMatch | services/competition/speedcube_queue.ts:102-112 | both users are removed from the queue and exactly one match is appended to the log |
| SpeedcubeQueue.Queue.AddToQueue | services/competition/speedcube_queue.ts:43-64 | the queue and the log become what addToQueue's specification gives (see EnqueuedSpec), and names stay unique |
| SpeedcubeQueue.Queue.FindMatches | services/competition/speedcube_queue.ts:75-99 | the loop over the live queue leaves the queue and log that the sweep specification gives (see SweepSpec) |
| SpeedcubeQueue.Queue.Tick | services/competition/speedcube_queue.ts:29-31 | one firing of the interval is one sweep of the 3x3 queue |
| CubePreview.KeyOf | frontend/src/components/CubePreview3d.tsx:194-198 | a string selects a pattern only when it is one of the six face letters |
| CubePreview.KeyOfName | frontend/src/components/CubePreview3d.tsx:4 | each face letter reads back as its key |
| CubePreview.ColorsDistinct | frontend/src/components/CubePreview3d.tsx:62-69 | the six face colours are pairwise different |
| CubePreview.InitialFaces | frontend/src/components/CubePreview3d.tsx:152-159 | the initial state has nine stickers per face, all of that face's colour |
| CubePreview.RotateFace | frontend/src/components/CubePreview3d.tsx:167-191 | a quarter turn keeps nine stickers and the centre, and moves each sticker from its fixed source index |
| CubePreview.RotateFaceInverse | frontend/src/components/CubePreview3d.tsx:167-191 | turning a face one way and then the other restores it |
| CubePreview.RotateFaceOrderFour | frontend/src/components/CubePreview3d.tsx:167-191 | four clockwise quarter turns restore the face |
| CubePreview.RotateFaceMultiset | frontend/src/components/CubePreview3d.tsx:167-191 | a face turn is a permutation of its stickers |
| CubePreview.PatternsWellFormed | frontend/src/components/CubePreview3d.tsx:80-147 | every FACE_PATTERNS entry has four distinct cycle faces other than the rotating one, each with three distinct indices below 9, and the counter-clockwise cycle is the clockwise one reversed |
| CubePreview.CycleShape | frontend/src/components/CubePreview3d.tsx:211-226 | either direction's sequence is four distinct faces, the same faces as the clockwise list, none of them the rotating face, and each has an index list in faceIndicesMap |
| CubePreview.SourceInverse | frontend/src/components/CubePreview3d.tsx:80-147 | the sticker a clockwise turn moves into a place is moved back by the counter-clockwise turn |
| CubePreview.TurnedAt | frontend/src/components/CubePreview3d.tsx:209-237 | after a layer turn every sticker holds the input's sticker at its source position |
| CubePreview.TurnInverse | frontend/src/components/CubePreview3d.tsx:193-240 | for every face, a clockwise turn followed by a counter-clockwise turn restores the state, and the other way round |
| CubePreview.TurnRotatesFace | frontend/src/components/CubePreview3d.tsx:209-210 | the rotating face of a layer turn is rotateFace of the input's face |
| CubePreview.TurnKeepsOthers | frontend/src/components/CubePreview3d.tsx:200-237 | a turn leaves every sticker outside the rotating face and the listed indices of the cycle faces unchanged, including the whole opposite face |
| CubePreview.TurnOrderFour | frontend/src/components/CubePreview3d.tsx:193-240 | four turns of the same layer in the same direction restore the state |
| CubePreview.TurnKeepsColourCounts | frontend/src/components/CubePreview3d.tsx:193-240 | a layer turn keeps the number of stickers of every colour |
| CubePreview.InitialColourCount | frontend/src/components/CubePreview3d.tsx:152-159 | the initial state has nine stickers of each of the six colours |
| CubePreview.BuildIndexMap | frontend/src/components/CubePreview3d.tsx:213-216 | the forEach over `affected` builds faceIndicesMap, a later entry for a face replacing an earlier one |
| CubePreview.ShiftFace | frontend/src/components/CubePreview3d.tsx:222-231 | one pass of the loop writes the next face's stickers into the listed indices of the current face |
| CubePreview.ShiftLastFace | frontend/src/components/CubePreview3d.tsx:233-237 | the last face takes the stickers saved from the first face before any write |
| CubePreview.RotateLayer | frontend/src/components/CubePreview3d.tsx:200-239 | the copy-and-write loops of rotateAnyFace return exactly the sticker-wise turn of the input, which they never modify |
| CubePreview.RotateAnyFace | frontend/src/components/CubePreview3d.tsx:193-240 | an unknown face returns the state unchanged; a known one returns the layer turn |
| CubeMoves.ValidMovesShape | frontend/src/components/CubePreview3d.tsx:149-150 | VALID_MOVES are exactly a face letter followed by nothing, a prime or a 2 |
| CubeMoves.KeyWithSuffixValid | frontend/src/components/CubePreview3d.tsx:149-150 | every face letter with any of the three suffixes is a valid move |
| CubeMoves.ParseMove | frontend/src/components/CubePreview3d.tsx:243-245 | a move is double exactly when it ends in 2, and clockwise exactly when it holds no prime. For a double or prime move the face is the move without its last character; otherwise it is the whole move |
| CubeMoves.PlainMove | frontend/src/components/CubePreview3d.tsx:242-254 | "X" is one clockwise turn of X |
| CubeMoves.PrimeMove | frontend/src/components/CubePreview3d.tsx:242-254 | "X'" is one counter-clockwise turn of X |
| CubeMoves.DoubleMove | frontend/src/components/CubePreview3d.tsx:242-254 | "X2" is two clockwise turns of X |
| CubeMoves.UnknownMoveKeepsState | frontend/src/components/CubePreview3d.tsx:195-198 | a move whose face is not a pattern key leaves the state unchanged |
| CubeMoves.PrimeDoubleIsUnknown | frontend/src/components/CubePreview3d.tsx:243-245 | "R'2" parses to the face "R'", which is no key, so it does nothing |
| CubeMoves.PrimeUndoesMove | frontend/src/components/CubePreview3d.tsx:242-254 | "X" followed by "X'", and "X'" followed by "X", restore the state |
| CubeMoves.DoubleTwice | frontend/src/components/CubePreview3d.tsx:242-254 | "X2" twice restores the state |
| CubeMoves.MoveKeepsColourCounts | frontend/src/components/CubePreview3d.tsx:242-254 | any move keeps the number of stickers of every colour |
| CubeMoves.ScrambledColourCounts | frontend/src/components/CubePreview3d.tsx:291-313 | after any sequence of moves from the initial state there are nine stickers of each colour |
| CubeMoves.Playable | frontend/src/components/CubePreview3d.tsx:298-302 | the moves played are among the tokens and are all in VALID_MOVES |
| CubeMoves.ScrambleMoves | frontend/src/components/CubePreview3d.tsx:294-295 | an empty scramble plays nothing; otherwise the tokens are the whitespace-separated words of the trimmed scramble |
| CubeMoves.Preview.constructor | frontend/src/components/CubePreview3d.tsx:162 | the preview starts at initialCubeState |
| CubeMoves.Preview.ProcessMove | frontend/src/components/CubePreview3d.tsx:242-254 | the cube state becomes the result of the move |
| CubeMoves.Preview.ShowScramble | frontend/src/components/CubePreview3d.tsx:291-313 | the state is reset to the initial state and then the valid tokens are applied in order, skipping the rest |
| Scrambler.TokenShape | services/competition/scrambler.ts:5-8 | each token is one face letter from R, L, U, D, F, B followed by one of "", "'" and "2", and holds no whitespace |
| Scrambler.Tokens | services/competition/scrambler.ts:4-8 | there are exactly 20 tokens, the i-th made from the i-th draw |
| Scrambler.ScrambleSplits | services/competition/scrambler.ts:9 | the scramble has no leading or trailing whitespace, and splitting it on whitespace gives back exactly the 20 tokens |
| ScrambleDisplay.TokenIsValidMove | services/competition/scrambler.ts:2-8 | every token the generator can make is in the preview's VALID_MOVES |
| ScrambleDisplay.PlayableAllValid | frontend/src/components/CubePreview3d.tsx:298-302 | when every token is valid, none is skipped |
| ScrambleDisplay.ShowGeneratedScramble | services/competition/scrambler.ts:1-10 | the preview plays every move of a generated scramble, in order |
| Text.TrimSplit | frontend/src/components/CubePreview3d.tsx:295 | trim then split on whitespace gives the words of the string, or [""] for a blank string |
| Text.WordsOfJoin | services/competition/scrambler.ts:9 | joining whitespace-free words with single spaces and splitting again gives the words back |
| Text.JoinTrimmed | services/competition/scrambler.ts:9 | a join of words with single spaces starts and ends with a non-space |
| Text.Join | frontend/src/components/MultiCountdown.tsx:44 | joining no tokens gives the empty string, and joining one token gives that token |
| SoloManager.Connected | services/competition/solo_manager.ts:38-40 | addConnection stores the socket and drops the user's session, and nothing else changes |
| SoloManager.Disconnected | services/competition/solo_manager.ts:46-50 | handleDisconnect removes the user's session and connection, and nothing else changes |
| SoloManager.Notified | services/competition/solo_manager.ts:173-177 | a connected user gets the message; notifying a user without a connection disconnects them |
| SoloManager.ConnectDropsSession | services/competition/solo_manager.ts:38-40 | after addConnection the user has the new socket and no session, and every other session is kept |
| SoloManager.CreateSessionFresh | services/competition/solo_manager.ts:71-90 | create_session replaces any session with a fresh one: scrambling, the user as participant, the generated scramble, and no result or start time. session_created is sent. A user without a connection ends with neither session nor connection |
| SoloManager.StartSolveSpec | services/competition/solo_manager.ts:92-112 | from scrambling, start_solve moves the session to solving with start_time = now and sends solve_started. From any other state, or without a session, it sends the error and changes no session. A user without a socket is disconnected instead: their session is dropped and nothing is sent |
| SoloManager.CompleteSolveSpec | services/competition/solo_manager.ts:114-150 | without a session or start time (0 included) only the error is sent. Otherwise, whatever the state, only this user's session changes: it moves to results with a new result of penalty none, and solve_completed carries that result. The time is the client's within 2000 ms of the server's measurement, else the server's. A user without a socket is disconnected instead of notified |
| SoloManager.CompleteSolveTwice | services/competition/solo_manager.ts:114-122 | complete_solve does not check the state, so a second call from results overwrites the first result |
| SoloManager.PenaltySpec | services/competition/solo_manager.ts:152-171 | apply_penalty needs a recorded result. It then changes only that result's penalty (none when absent) and sends penalty_applied with it; otherwise it sends the error. A user without a socket is disconnected instead of notified |
| SoloManager.EndSessionRemoves | services/competition/solo_manager.ts:67 | end_session removes both the session and the connection |
| SoloManager.UnknownMessageIgnored | services/competition/solo_manager.ts:62-68 | a message of unknown type leaves all state unchanged |
| SoloManager.NoSessionAfterEnd | services/competition/solo_manager.ts:67-90 | after end_session, create_session cannot recreate a session: the notification finds no connection |
| SoloManager.InvariantConnect | services/competition/solo_manager.ts:38-44 | every session belongs to a connected user, names that user, and has the start time and result its state calls for; addConnection keeps this |
| SoloManager.InvariantNotified | services/competition/solo_manager.ts:173-177 | notifyUser keeps the invariant |
| SoloManager.InvariantCreate | services/competition/solo_manager.ts:71-90 | create_session keeps the invariant |
| SoloManager.InvariantStart | services/competition/solo_manager.ts:92-112 | start_solve keeps the invariant |
| SoloManager.InvariantComplete | services/competition/solo_manager.ts:114-150 | complete_solve keeps the invariant |
| SoloManager.InvariantPenalty | services/competition/solo_manager.ts:152-171 | apply_penalty keeps the invariant |
| SoloManager.InvariantHandled | services/competition/solo_manager.ts:60-69 | every message handled keeps the invariant |
| SoloManager.Manager.constructor | services/competition/solo_manager.ts:34-36 | no sessions, no connections, nothing sent |
| SoloManager.Manager.AddConnection | services/competition/solo_manager.ts:38-44 | the maps change as Connected says |
| SoloManager.Manager.HandleDisconnect | services/competition/solo_manager.ts:46-50 | the maps change as Disconnected says |
| SoloManager.Manager.GetActiveSession | services/competition/solo_manager.ts:56-58 | the user's session when there is one, and nothing otherwise |
| SoloManager.Manager.NotifyUser | services/competition/solo_manager.ts:173-177 | the state changes as Notified says |
| SoloManager.Manager.HandleCreateSession | services/competition/solo_manager.ts:71-90 | the in-place updates give the state CreateSessionFresh describes |
| SoloManager.Manager.HandleStartSolve | services/competition/solo_manager.ts:92-112 | the in-place updates give the state StartSolveSpec describes |
| SoloManager.Manager.HandleSolveComplete | services/competition/solo_manager.ts:114-150 | the in-place updates give the state CompleteSolveSpec describes |
| SoloManager.Manager.HandlePenalty | services/competition/solo_manager.ts:152-171 | the in-place updates give the state PenaltySpec describes |
| SoloManager.Manager.HandleMessage | services/competition/solo_manager.ts:60-69 | the dispatch runs the handler for the message's type and ignores unknown types |
| CompetitionManager.ConnectSpec | services/competition/competition_manager.ts:12-16 | addConnection stores the socket and deletes any earlier session of the user, and nothing else |
| CompetitionManager.DisconnectSpec | services/competition/competition_manager.ts:18-23 | handleDisconnect removes the user's session and connection, and nothing else |
| CompetitionManager.NotifyChangesNoState | services/competition/competition_manager.ts:85-91 | notifyUser never changes sessions or connections, and sends exactly when the user is connected |
| CompetitionManager.SoloStartSpec | services/competition/competition_manager.ts:26-43 | handleSoloStart replaces any session with SOLO, SCRAMBLING, participants [user], the generated scramble, empty results and no start time |
| CompetitionManager.ReadySpec | services/competition/competition_manager.ts:46-60 | handleReady does nothing unless the session exists in SCRAMBLING; a solo session moves to SOLVING with start_time = now, and another kind is unchanged |
| CompetitionManager.CompleteNeedsStart | services/competition/competition_manager.ts:62-64 | without a session or start time, handleSolveComplete changes nothing, not even the caller's result |
| CompetitionManager.TimeReplacedIffSkewed | services/competition/competition_manager.ts:66-72 | the submitted time is replaced by the server time when they differ by more than 2000 ms, and is kept otherwise |
| CompetitionManager.SoloCompletionSpec | services/competition/competition_manager.ts:74-83 | a solo completion sets COMPLETE and stores the (possibly corrected) result in `results`; other kinds are unchanged |
| CompetitionManager.AsWrittenNothingSent | services/competition/competition_manager.ts:26-83 | as written, the enum names are undeclared, so no sequence of handler calls ever stores a session or sends a message. Sessions only go away, and from the manager's empty start none ever exists |
| CompetitionManager.AsWrittenStartThenReady | services/competition/competition_manager.ts:26-60 | as written, connect, SOLO_START and ready leave the user without a session, and nothing is sent |
| CompetitionManager.IntendedStartThenReady | services/competition/competition_manager.ts:26-60 | with the enum names at their evident values, the same calls leave the user solving with start_time = now, after two SESSION_UPDATE messages |
| CompetitionManager.NoReadyAfterComplete | services/competition/competition_manager.ts:46-48 | a completed session cannot be started again |
| CompetitionManager.InvariantConnect | services/competition/competition_manager.ts:12-16 | every session is solo, of its user alone, and has the start time and results its state calls for; addConnection keeps this |
| CompetitionManager.InvariantDisconnect | services/competition/competition_manager.ts:18-23 | handleDisconnect keeps the invariant |
| CompetitionManager.InvariantSoloStart | services/competition/competition_manager.ts:26-43 | handleSoloStart keeps the invariant |
| CompetitionManager.InvariantReady | services/competition/competition_manager.ts:46-60 | handleReady keeps the invariant |
| CompetitionManager.InvariantComplete | services/competition/competition_manager.ts:62-83 | handleSolveComplete keeps the invariant |
| CompetitionManager.CompetitionStateManager.constructor | services/competition/competition_manager.ts:7-8 | no sessions, no connections, nothing sent |
| CompetitionManager.CompetitionStateManager.AddConnection | services/competition/competition_manager.ts:12-16 | the maps change as ConnectSpec describes |
| CompetitionManager.CompetitionStateManager.HandleDisconnect | services/competition/competition_manager.ts:18-23 | the maps change as DisconnectSpec describes |
| CompetitionManager.CompetitionStateManager.HandleSoloStart | services/competition/competition_manager.ts:26-43 | the state changes as SoloStartSpec describes |
| CompetitionManager.CompetitionStateManager.HandleReady | services/competition/competition_manager.ts:46-60 | the in-place updates give the state ReadySpec describes |
| CompetitionManager.CompetitionStateManager.HandleSolveComplete | services/competition/competition_manager.ts:62-83 | the state changes as SoloCompletionSpec describes, and the caller's result object afterwards carries the corrected time |
| CompetitionManager.CompetitionStateManager.NotifyUser | services/competition/competition_manager.ts:85-91 | only the sent log changes, as NotifyChangesNoState describes |
| Routes.Add | services/competition/routes.ts:78 | Set.add keeps the set's members and adds the user once: unchanged when present, one longer otherwise |
| Routes.Get | services/competition/routes.ts:35-45 | 404 exactly for an unknown id; otherwise 200 with the stored competition unchanged |
| Routes.CreateSpec | services/competition/routes.ts:11-33 | 400 exactly when participants is missing or not of length 2, with nothing stored. Otherwise 200, and a competition in scrambling is stored under the new id, with the given participants and an empty ready set and results |
| Routes.ReadyErrors | services/competition/routes.ts:53-75 | the checks run in order: 404 unknown id, 400 missing userId, 400 not scrambling, then 403 exactly when the user IS a participant. No error changes any state |
| Routes.ReadySuccess | services/competition/routes.ts:77-93 | a successful ready adds the user to the ready set. The state becomes solving exactly when the ready count equals the participant count, and stays scrambling otherwise |
| Routes.MarkReadyIdempotent | services/competition/routes.ts:77-87 | marking the same user ready twice is the same as once |
| Routes.ParticipantCannotReady | services/competition/routes.ts:71-75 | as written, a participant can never mark ready: the call fails and changes nothing |
| Routes.ParticipantsStayScrambling | services/competition/routes.ts:71-87 | as written, when both participants of a new competition call ready, both calls fail and the competition stays in scrambling with nobody ready |
| Routes.IntendedReadySpec | services/competition/routes.ts:71-75 | with the check corrected, a ready call in scrambling succeeds exactly for a participant; any other user gets 403 and nothing changes |
| Routes.IntendedParticipantsStartSolving | services/competition/routes.ts:77-87 | with the check corrected, both participants calling ready moves a new competition to solving with both ready, in call order |
| Routes.ResultErrors | services/competition/routes.ts:103-135 | the checks run in order: 404, then 400 for a missing userId or falsy time, then 400 unless solving, 403 for a non-participant, and 400 for a repeat submission. Success happens exactly when none applies, and no error changes state |
| Routes.ZeroTimeRefused | services/competition/routes.ts:109 | a time of 0 is refused with 400 |
| Routes.ResultSuccess | services/competition/routes.ts:137-146 | a successful submission appends {userId, time}; the state becomes complete exactly when there are two results, and stays solving otherwise |
| Routes.AddKeepsNoRepeats | services/competition/routes.ts:78 | the ready set never holds a user twice |
| Routes.MarkReadyWellFormed | services/competition/routes.ts:77-87 | a ready call from scrambling keeps a competition well formed |
| Routes.RecordWellFormed | services/competition/routes.ts:137-144 | recording a first result of a participant keeps a competition well formed |
| Routes.InvariantCreate | services/competition/routes.ts:20-30 | every stored competition has two participants, a ready set without repeats, results only from participants with none repeated, and a state matching its counts (complete exactly with two results); creation keeps this |
| Routes.InvariantReady | services/competition/routes.ts:47-95 | the ready handler keeps the invariant |
| Routes.InvariantSubmit | services/competition/routes.ts:97-148 | the results handler keeps the invariant, so no user ever has two results |
| Routes.CompetitionRouter.constructor | services/competition/routes.ts:8 | the competitions map starts empty |
| Routes.CompetitionRouter.PostComp | services/competition/routes.ts:11-33 | the map and response are those CreateSpec describes |
| Routes.CompetitionRouter.GetComp | services/competition/routes.ts:35-45 | the response is the one Get describes, and nothing changes |
| Routes.CompetitionRouter.PostReady | services/competition/routes.ts:47-95 | the in-place updates give the map and response ReadyErrors and ReadySuccess describe |
| Routes.CompetitionRouter.PostResults | services/competition/routes.ts:97-148 | the loop for the duplicate check and the in-place push give the map and response ResultErrors and ResultSuccess describe |
| Records.Lookup | frontend/src/hooks/useMultiNew.ts:96 | `record[key]` finds a value exactly when some entry has the key, and the value found is that entry's |
| Records.Values | frontend/src/components/MultiCountdown.tsx:32 | Object.values lists the values in entry order |
| Records.Put | frontend/src/hooks/useMultiNew.ts:93-99 | after `{...r, [k]: v}` the key maps to v and every other key maps as before |
| Records.PutKeysExisting | frontend/src/hooks/useMultiNew.ts:93-99 | overwriting an existing key keeps the keys in their order |
| Records.PutKeysNew | frontend/src/hooks/useMultiNew.ts:93-99 | a new key goes last in insertion order |
| Records.PutUnique | frontend/src/hooks/useMultiNew.ts:93-99 | the update keeps keys unique |
| Records.Remove | frontend/src/hooks/useMultiNew.ts:126-127 | after delete the key is absent and every other key maps as before |
| Records.RemoveUnique | frontend/src/hooks/useMultiNew.ts:126-127 | delete keeps keys unique |
| Records.HasKeyIffInKeys | frontend/src/components/MultiResult.tsx:31 | a key is present exactly when Object.keys lists it |
| MultiResult.AdjustedTime | frontend/src/components/MultiResult.tsx:41-42 | plus2 adds exactly 2000 ms and any other penalty uses the raw time |
| MultiResult.WinnerShape | frontend/src/components/MultiResult.tsx:30-47 | null exactly when results are missing or fewer than two; otherwise one of the first two usernames or 'tie' |
| MultiResult.OnlyFirstTwoCount | frontend/src/components/MultiResult.tsx:33-34 | entries after the second never change the winner |
| MultiResult.DnfLoses | frontend/src/components/MultiResult.tsx:37-38 | a first-player DNF makes the second win even when also DNF; a second-player DNF alone makes the first win |
| MultiResult.FasterWins | frontend/src/components/MultiResult.tsx:41-46 | without DNFs, the strictly smaller adjusted time wins, and 'tie' happens exactly when the adjusted times are equal |
| MultiResult.PlusTwoCostsTwoSeconds | frontend/src/components/MultiResult.tsx:41-46 | a clean solve beats a +2 solve exactly when it is less than 2000 ms slower, and ties at exactly 2000 ms |
| MultiResult.WinnerOrderFree | frontend/src/components/MultiResult.tsx:37-46 | without DNFs, swapping the two entries does not change who wins, nor a tie |
| MultiResult.DoubleDnfOrderDecides | frontend/src/components/MultiResult.tsx:37-38 | with two DNFs the second entry wins, whichever it is |
| MultiResult.FormattedTimeShape | frontend/src/components/MultiResult.tsx:18-28 | plus2 shows format(time + 2000) followed by "+", DNF shows "DNF(" format(time) ")", and none shows format(time) |
| MultiClient.NoPayloadNoChange | frontend/src/hooks/useMultiNew.ts:67 | a message without payload changes nothing |
| MultiClient.QueuingClears | frontend/src/hooks/useMultiNew.ts:72-75 | a state change to queuing resets the view to no main state, no scramble, empty results and peers, and no error |
| MultiClient.StateChangeSpec | frontend/src/hooks/useMultiNew.ts:77-83 | any other state change sets the main state and the scramble (cleared when absent), keeps the error, and keeps results and peers unless the payload carries them |
| MultiClient.PeerFlagSpec | frontend/src/hooks/useMultiNew.ts:87-119 | peer_ready and peer_unready set isReady on that peer only, creating {username: peer} for a new one; nothing else changes |
| MultiClient.PeerDisconnectedSpec | frontend/src/hooks/useMultiNew.ts:121-135 | peer_disconnected removes that peer and sets the error "Peer p disconnected"; nothing else changes |
| MultiClient.OtherFieldsSpec | frontend/src/hooks/useMultiNew.ts:87-157 | results_update replaces the results wholesale; error sets the error only when the message is non-empty; a missing peer, results or message changes nothing |
| MultiClient.IgnoredKindsKeepView | frontend/src/hooks/useMultiNew.ts:69-158 | the switch has no case for countdown, WebRTC, peer_update, session_ended or any unknown message type, and those leave the view unchanged |
| MultiClient.ReducedWellKeyed | frontend/src/hooks/useMultiNew.ts:66-159 | the reducer never gives a record a repeated key |
| MultiClient.MessageForInjective | frontend/src/hooks/useMultiNew.ts:214-228 | different actions send different messages, and no action sends a chat or rtc_connected message |
| MultiClient.SendNeedsOpenSocket | frontend/src/hooks/useMultiNew.ts:58-64 | a message is sent exactly when the socket exists and is open |
| MultiClient.MultiRace.constructor | frontend/src/hooks/useMultiNew.ts:36-42 | disconnected, no socket, the cleared view, nothing sent |
| MultiClient.MultiRace.Cleanup | frontend/src/hooks/useMultiNew.ts:45-56 | an existing socket is closed and dropped, the connection is disconnected, and the view is cleared |
| MultiClient.MultiRace.SendMessage | frontend/src/hooks/useMultiNew.ts:58-64 | only the sent log changes, and only with an open socket |
| MultiClient.MultiRace.HandleServerMessage | frontend/src/hooks/useMultiNew.ts:66-159 | the view becomes the reducer's result; a change to queuing also runs cleanup, and nothing else touches the socket |
| MultiClient.MultiRace.Perform | frontend/src/hooks/useMultiNew.ts:214-228 | each action sends its message through the guard; leaveSession then runs cleanup, and other actions change nothing else |
| CompetitionStore.Store.constructor | client/composables/useCompetitionStore.ts:8-10 | no session, disconnected, no error, no competitors |
| CompetitionStore.Store.CurrentState | client/composables/useCompetitionStore.ts:14 | the session's state, null exactly when there is no session |
| CompetitionStore.Store.CurrentScramble | client/composables/useCompetitionStore.ts:15 | the session's scramble, empty without a session |
| CompetitionStore.Store.CanStartSpec | client/composables/useCompetitionStore.ts:16-19 | canStart holds exactly when connected and the current state is scrambling, and only for an active session |
| CompetitionStore.Store.SolveTime | client/composables/useCompetitionStore.ts:20-24 | the first result's time, and null exactly when there is no session, no result, or that time is 0 |
| CompetitionStore.Store.PenaltyOf | client/composables/useCompetitionStore.ts:25-29 | the first result's penalty, none without one |
| CompetitionStore.Store.UpdateSession | client/composables/useCompetitionStore.ts:32-34 | replaces the session and nothing else |
| CompetitionStore.Store.SetConnectionState | client/composables/useCompetitionStore.ts:36-38 | replaces the connection state and nothing else |
| CompetitionStore.Store.SetError | client/composables/useCompetitionStore.ts:40-42 | replaces the error and nothing else |
| CompetitionStore.Store.Reset | client/composables/useCompetitionStore.ts:44-47 | clears the session and error only, so the store is inactive, cannot start, and shows no time, penalty or scramble; connection and competitors stay |
| CompetitionStore.Store.UpdateCompetitors | client/composables/useCompetitionStore.ts:50-53 | replaces the competitors and nothing else |
| MultiCountdown.Unready | frontend/src/components/MultiCountdown.tsx:32 | the filter keeps only 'unready' values, and is empty exactly when no value is 'unready' |
| MultiCountdown.StartedMessage | frontend/src/components/MultiCountdown.tsx:35-37 | once the countdown has started the message is 'Get ready to solve!', whatever the peers say |
| MultiCountdown.AllReadyMessage | frontend/src/components/MultiCountdown.tsx:39-41 | with no peer value 'unready' the message is 'Hold space when ready' |
| MultiCountdown.OneUnreadyMessage | frontend/src/components/MultiCountdown.tsx:44-45 | one unready entry reads "unready is unready": the text joins the status strings, not the peer names |
| MultiCountdown.TwoUnreadyMessage | frontend/src/components/MultiCountdown.tsx:44-45 | two unready entries read "unready, unready are unready" |
| MultiCountdown.MessageCountsOnly | frontend/src/components/MultiCountdown.tsx:32-45 | the message depends on the peers only through how many are unready |
| MultiCountdown.UnreadyNames | frontend/src/components/MultiCountdown.tsx:32 | the names of exactly the peers whose status is 'unready', as many as the filter keeps (corrected message) |
| MultiCountdown.IntendedAgrees | frontend/src/components/MultiCountdown.tsx:34-46 | the corrected message equals the one as written when the countdown has started or nobody is unready, and it picks is/are from the same count |
| MultiCountdown.IntendedOneUnreadyMessage | frontend/src/components/MultiCountdown.tsx:44-45 | with the correction, one unready peer named alice reads "alice is unready" |
| MultiCountdown.KeyCallbackSpec | frontend/src/components/MultiCountdown.tsx:12-21 | a non-repeat Space keydown starts the countdown, a Space keyup cancels it, and every other key event does nothing |

## Left out

- I/O and plumbing are not modelled. This covers WebSocket wiring (`onmessage`, `onclose`, `onerror`), JSON encoding and parsing, the `console` logging, and the HTTP framework. Handlers are called directly, and messages sent are appended to a log.
- A message or body that fails to parse, or lacks a field the code reads without checking, is not modelled. An example is a `complete_solve` without `payload`. In the source it throws.
- A `participants` value that is not an array is not modelled. A body is a record of optional fields.
- Persistence is not modelled: `storeSession` in the solo manager, `storeSolve` in the competition manager, and the database modules. Interleaving at the `await` before the notification in `handleSolveComplete` and `handlePenalty` is not modelled either; each handler runs to completion.
- Clocks, `crypto.randomUUID()` and `Math.random` are parameters. These are `now`, a fresh `id`, and the scramble's draws. `createdAt` is `now`.
- `generateScramble(cube_type)` ignores its argument, so the cube type never reaches the scramble in the model either.
- SpeedcubeQueue.SweepFrom: one `now` serves a whole findMatches run. The source reads `Date.now()` afresh for each user it visits, so a wait can grow by the time the loop itself takes.
- In the queue, the interval timer and `cleanup()` (`clearInterval`, `queues.clear()`, `removeAllListeners`) are not modelled. One firing of the timer is `Tick`. The `match` event is an entry of the `matches` log.
- A queue operation on a cube type without a queue crashes on `get(...)!` in the source. The model requires the queue to exist.
- Millisecond quantities are integers: average solve times, submitted and recorded solve times, start times and the clock. In the source they are JavaScript numbers and may be fractional. The 2000 ms rule and the comparisons read the same on fractional values.
- The preview schedules each valid move with `setTimeout(index * 100)` and clears pending timeouts when the scramble changes. The model applies the moves in order at once, so a scramble replaced mid-play is not modelled.
- Mouse-drag rotation and all rendering are not modelled.
- CubePreview.KeyOf: a face string that names an Object.prototype member is not modelled. Examples are "constructor", "toString" and "__proto__". `FACE_PATTERNS[face]` finds a truthy inherited value for these, and the source then throws inside rotateFace. Only the six letters select a pattern, and every other string is treated as absent. The preview only passes moves in VALID_MOVES.
- CubePreview.RotateAnyFace: "an unknown face leaves the state unchanged" holds for every string except Object.prototype member names, for which the source throws.
- CubeMoves.UnknownMoveKeepsState: the same exception applies; a move whose face is an Object.prototype member name throws in the source.
- `getActiveSessions` of the solo manager is not modelled; it lists the map's values in insertion order, and sessions are kept in a Dafny `map`.
- Response bodies are the stored competition values. JSON serialisation is not modelled; in the source a `Set` of ready participants serialises as `{}` except in the ready handler's own response.
- Records.Lookup: a key that names an Object.prototype member (such as a peer called "constructor") is not modelled. `record[key]` finds the inherited property there, and `{username: peer}` would not be used. Keys are taken to be own keys only.
- Records.PutKeysNew: keys are assumed not to be integer-like. JavaScript lists integer-like keys (such as a username "123") first, in ascending order, ahead of the other keys in insertion order.
- CompetitionManager.SoloStarted: the competition manager's handlers take `SessionType.SOLO` and `SessionState.SCRAMBLING`/`SOLVING`/`COMPLETE` at their evident values. competition_manager.ts neither imports nor declares these names, so as written SOLO_START throws before storing a session. The model keeps both readings (see "## Findings"), and the class uses the evident one.
- `formatTime` is a parameter, because it formats floating point with `toFixed`.
- `null` and `undefined` are not distinguished for the race hook's `mainState`, `scramble` and `error`. Each is an `Option`.
- The hook's `initialize` (token fetch, URL, `onopen`, `onclose`, `onerror`) is not modelled. The socket is a value: absent, open or not open.
- The store's getters treat `session.results` as always present, because the model's session always has a results record.
- MultiCountdown reads `peers` and `countdownStarted` from frontend/src/store.ts. That store is not part of this model and declares neither field, so both are parameters. Registering and removing the window key listeners is not modelled; `KeyCallback` says what each event does.
- Routes.InvariantSubmit: there is no separate pigeonhole lemma that a competition in solving has fewer than two results. That bound is part of the invariant.

## Findings

| source | as written | input that shows it | evidently intended | confidence | as-written member | corrected member |
|---|---|---|---|---|---|---|
| services/competition/competition_manager.ts:29-30 | `SessionType.SOLO` and `SessionState.SCRAMBLING` are used as values, but neither name is imported or declared. services/competition/types.ts declares SessionState only as a type of string literals, and no SessionType at all. handleSoloStart throws before it stores the session | a connected user sends SOLO_START and then READY: no session is stored and nothing is sent, and READY returns at the missing session | the enum members evaluate to their names, so the solo session is stored and announced, and READY moves it to solving | high (not executed) | CompetitionManager.AsWrittenStartThenReady | CompetitionManager.IntendedStartThenReady |
| services/competition/routes.ts:71 | the ready handler answers 403 "User not in competition" when the user IS a participant, and accepts everyone else | a new competition with participants [a, b]: POST ready with userId a gives 403, and so does b; the competition never leaves scrambling | refuse users who are not participants (`!participants.includes(userId)`), as the results handler does at routes.ts:123 | high (not executed) | Routes.ParticipantsStayScrambling | Routes.IntendedParticipantsStartSolving |
| frontend/src/components/MultiCountdown.tsx:32-45 | the banner filters and joins the peers' status values, so it lists the word "unready" once per unready peer | one peer alice with status 'unready': the banner reads "unready is unready" | name the unready peers: "alice is unready" | high (not executed) | MultiCountdown.OneUnreadyMessage | MultiCountdown.IntendedOneUnreadyMessage |

# Telephony control planes: verified models

Several control planes share this repository: a live interpreter for two people who speak
different languages, a phone exchange with a dial plan, a contact centre, and a push-to-talk
channel. Each drives a VoiceBlender media server and keeps its own state behind mutexes. This
project models that state and what every handler does to it, and proves what the code is written
to guarantee. The media server appears as the set of things it holds (staged audio, playing audio,
attached transcribers, rooms) and as commands that may be refused; ids it hands out are fresh.

## How the modules are arranged

A component usually has two modules: a value-level one with the state, one function for each
handler and the theorems over whole runs, and a class whose methods update fields in the program's
order. Each method is proved to have exactly the effect of that function. Where the theorems rest on an
invariant of the object, it is the object's `Valid()`, which every handler requires and keeps, so whoever
holds such an object holds what is proved of every run.

| component | theory | objects |
|---|---|---|
| interpreter, speculative turns | `Staging`, `Speculation`, `Transparency`, `HeldAudio`, `Voices`, `StagedOwnership`, `StagedAccounts` | `Interpreter` |
| interpreter, transcriber per leg | `Reconciler`, `Detaching` | `Transcription` |
| interpreter, translation cache | `TranslationCache` | `TranslationCache.CachingTranslator` |
| exchange, speech matcher | `EditDistance`, `SpeechMatch` | |
| exchange, dial plan | `DialplanGraph`, `StepGuard`, `DialplanWalk`, `DialplanPath`, `Gather`, `DialplanExec`, `DialplanResume` | `DialplanCall` |
| exchange, parallel ringing | `Fork` | `ForkGroups` |
| contact centre, transfers | `Transfers`, `HandOff` | `Transfers.TransferRegistry` |
| contact centre, calls and panels | `CallRegistry`, `WakeUps` | `CallRegistry.Registry` |
| contact centre, log and figures | `CallLog`, `Metrics` | `CallLog.MemStore`, `CallLog.RedisStore` |
| push-to-talk floor | `Floor`, `FloorLaws` | `FloorManager` |

What a handler's function means is said apart from it, by relations between what is there before and
after: which audio goes and which stays (`HeldAudio`), where a walk leads (`DialplanPath`) and from where
a call goes on (`DialplanResume`), who has the floor (`FloorLaws`), which field gets which value.

`Options` and `AsciiText` are shared helpers. Two granularities are used. Where every critical
section and every command is a step of its own and handlers interleave freely (`StagedOwnership`, `StagedAccounts`,
`Reconciler`, `Detaching`, `Fork`, `Transfers`, `HandOff`, `CallRegistry`, `WakeUps`, `TranslationCache`), the
results hold for the code as it is scheduled. Where a whole handler is one step (`Transparency`,
`HeldAudio`, `Voices`, `DialplanExec`, `DialplanResume`, `Floor`), they hold for handlers that do not overlap; `Floor` also says exactly
when one kind of overlap does harm.

## What was found out about the code

Some promises hold only under a condition. Each comes with its exact condition, and where it takes a
history to fail, with such a history from the start state.

- A listener who changes language while audio is staged for them hears it in the old language, because
  `setLanguage` drops only what the participant staged itself. The session still follows the plain
  cascade exactly when everything held translates alike into both languages
  (`Transparency.ListenerLanguageChange`; `Voices.GuessIsHeld` is the history).
- Audio that was guessed is left at the server, where it fills one of three slots, exactly when the server
  refuses to play it though it is ready and right, or when its turn is guessed once more
  (`HeldAudio.LeavesBehindIff`; `HeldAudio.RefusedCommitIsLeft` is a history). Otherwise none ever is
  (`HeldAudio.HeldIsStaged`).
- A refused stop is only logged, and the next utterance starts all the same: it sounds over the one in
  flight exactly when that one still played and was not stopped (`Voices.OverlapsIffStopRefused`;
  `Voices.RefusedStopOverlaps`).
- Legs are bound and lost without the lock that serializes transcription. A new leg is safe, however the
  run goes on, exactly while a stop is pending or while no transcriber is marked nor about to be marked for
  the old leg; losing one is safe exactly while a stop is pending or none is about to be marked
  (`Reconciler.BindingIsSafeIff`, `Reconciler.UnbindingIsSafeIff`; `Reconciler.LegLostInDialIsUnsettled`).
  A leg bound under a stale mark stays without a transcriber as long as the language is not changed,
  transcription not stopped and the leg not lost (`Reconciler.StaleMarkBlocksNewLeg`), and a change of
  language recovers it (`Reconciler.LanguageChangeRecovers`).
- The guard of fifty steps does not stop a walk that keeps passing nodes which restart the count; it is
  enough exactly when no such node is back at itself within the guard's reach
  (`DialplanWalk.WalksEndExactly`; `DialplanWalk.BlankPlayLoops`, and `DialplanWalk.DecliningExtLoops`,
  where the last candidates of an extension decline on the spot).
- A blank speech option takes every transcript past the phrase tier that no earlier option is spoken in and
  that has some word that is no number word (`SpeechMatch.BlankOptionIsCatchAll`).
- In a fork the winner itself is dropped exactly if, while it was listed, the caller gave up, it answered
  for a caller who could not be answered, or it answered after it had won (`Fork.WinnerDroppedIffEvent`;
  `Fork.CallerLeavingDropsWinner`, `Fork.RefusedCallerDropsWinner`, `Fork.AnsweringTwiceDropsWinner`).
- A transfer created between the two looks that the call loop takes when a leg drops does not protect the
  customer (`HandOff.NoHangUpWhileHandingOver`; `HandOff.CreatedBetweenTheLooks`). A second hand-off whose
  signal finds the first one still waiting leaves the loop watching the wrong leg
  (`HandOff.LoopFollowsAgent`, `HandOff.OvertakenLoopWatchesAnother`; `HandOff.HandOffsOvertake`). A
  transfer in flight can leave the register unless it is a consultation completed on a call that is gone,
  which stays for good (`HandOff.LeavesRegisterIff`; `HandOff.ConsultationIsAbandoned`).
- A press between a release and the end of its teardown leaves the new holder without a role
  (`Floor.LateTeardownFitsIff`; `Floor.PressDuringTeardown`).

## Model

| member | source | states |
|---|---|---|
| EditDistance.Levenshtein | cmd/pbx/dialplan_speech.go:87-113 | the two-row loop returns the least number of inserts, deletes and replacements that turn one word into the other |
| EditDistance.NextRow | cmd/pbx/dialplan_speech.go:100-111 | one round of the loop turns the row of distances for one prefix into the row for the next |
| EditDistance.ShortestScript | cmd/pbx/dialplan_speech.go:80-113 | an edit script of the computed cost exists for every pair of words |
| EditDistance.NoShorterScript | cmd/pbx/dialplan_speech.go:80-113 | no edit script between the words is cheaper than the computed cost |
| EditDistance.DistIsEditDistance | cmd/pbx/dialplan_speech.go:80-113 | the recurrence of the table is the minimum over all edit scripts |
| EditDistance.ZeroOnlyForEqual | cmd/pbx/dialplan_speech.go:87-113 | the distance is zero exactly for equal words |
| EditDistance.Symmetric | cmd/pbx/dialplan_speech.go:87-113 | the distance does not depend on the direction |
| EditDistance.Triangle | cmd/pbx/dialplan_speech.go:87-113 | going through a third word is never shorter |
| EditDistance.LengthBounds | cmd/pbx/dialplan_speech.go:87-113 | the distance lies between the difference in length and the longer length |
| SpeechMatch.MatchSpeech | cmd/pbx/dialplan_speech.go:12-53 | a hit is the first option of the earliest tier that matches, nearest first in the last tier; a miss means that no option matches in any tier |
| SpeechMatch.FindSubstring | cmd/pbx/dialplan_speech.go:19-25 | finds a substring if and only if there is one |
| SpeechMatch.FirstSpoken | cmd/pbx/dialplan_speech.go:27-34 | the first option that a word says, literally or as a number word |
| SpeechMatch.Nearest | cmd/pbx/dialplan_speech.go:36-52 | the first option of least distance among those within tolerance of some word |
| SpeechMatch.TokensAreMaximalRuns | cmd/pbx/dialplan_speech.go:74-78 | the words of a transcript are exactly its maximal runs of letters and digits |
| SpeechMatch.Tolerance | cmd/pbx/dialplan_speech.go:58-71 | how far a word may be off: at most three, less than half of an option, and nothing exactly for options of up to three characters |
| SpeechMatch.SpokenMeansNumberWord | cmd/pbx/dialplan_speech.go:25-34 | after the phrase tier the word tier adds only number words |
| SpeechMatch.CloseNeedsFourCharacters | cmd/pbx/dialplan_speech.go:36-71 | after the phrase tier only options of four characters or more are matched closely, and never at distance zero |
| SpeechMatch.BlankOptionIsCatchAll | cmd/pbx/dialplan_speech.go:19-34 | a blank option is the answer exactly when no option is a phrase, no earlier one is spoken and some word is no number word |
| SpeechMatch.AmbiguityBound | cmd/pbx/dialplan_speech.go:36-71 | a word within tolerance of two options keeps them within the sum of their tolerances |
| SpeechMatch.LengthsKeepOptionsApart | cmd/pbx/dialplan_speech.go:58-71 | options whose lengths differ by more than six are never both close to one word |
| SpeechMatch.NormalIsComparedAs | cmd/pbx/dialplan_speech.go:13-22 | what is compared has no capital and no surrounding blank, and is otherwise the text character by character |
| SpeechMatch.CaseAndBlanksAreIrrelevant | cmd/pbx/dialplan_speech.go:12-53 | transcripts and options that differ in capitals and surrounding blanks only have the same answers |
| SpeechMatch.AnswerIsUnique | cmd/pbx/dialplan_speech.go:12-53 | there is at most one answer |
| SpeechMatch.MatchAlike | cmd/pbx/dialplan_speech.go:12-53 | two such transcripts are matched to the same option or both to none |
| SpeechMatch.NumberWordMeans | cmd/pbx/dialplan_speech.go:80-84 | a word is heard as a digit exactly if it is one of that digit's words |
| SpeechMatch.ToleranceIsTwoFifths | cmd/pbx/dialplan_speech.go:58-71 | two fifths of the length, rounded down, and three from eight characters on |
| SpeechMatch.LetterOrDigit | cmd/pbx/dialplan_speech.go:74-78 | words are made of the small letters and the digits |
| Staging.PutKeeps | cmd/interpreter/session.go:106-111 | recording keeps every staged entry indexed under its own id |
| Staging.TakeKeeps | cmd/interpreter/session.go:116-122 | taking a turn removes exactly its entry from what is staged |
| Staging.ReleaseKeeps | cmd/interpreter/session.go:125-132 | releasing an id that is no longer staged keeps the two indexes consistent |
| Staging.DropTurnsKeeps | cmd/interpreter/session.go:135-145 | dropping turns removes exactly their ids |
| StagedOwnership.SingleOwnership | cmd/interpreter/interpret.go:222-393 | over every interleaving each staged id is sent at most one commit or discard in all, a commit only after its channel closed, no channel closes twice, and staged entries are indexed under their own id |
| StagedOwnership.RunKeeps | cmd/interpreter/interpret.go:482-583 | the ownership invariant survives eviction, discard and sweep steps in any order |
| StagedAccounts.NothingIsLost | cmd/interpreter/interpret.go:222-583 | with the leg up and no turn staged twice, once all handlers are done every id ever given out is staged still or was sent exactly one commit or discard |
| StagedAccounts.IndexIsDesk | cmd/interpreter/session.go:106-145 | in the same runs just what is staged is then indexed |
| StagedAccounts.ReadyGuessIsCommitted | cmd/interpreter/interpret.go:318-393 | three steps after taking an entry that is ready and was said, a handler commits it |
| StagedAccounts.FullDeskIsEvictedFrom | cmd/interpreter/interpret.go:482-503 | with three staged a guess first takes the lowest turn |
| StagedAccounts.TakenOffIsHeld | cmd/interpreter/interpret.go:522-583 | what a change or the sweeper takes off the desk is in the hands of its handler |
| StagedAccounts.OneGuessAtATime | cmd/interpreter/interpret.go:235-258 | over every interleaving no two handlers guess about one turn at a time, and once all are done no barrier is up |
| Transparency.SpeculationIsTransparent | cmd/interpreter/interpret.go:30-34 | over every run in which a language changes only if what is held for it translates alike, the utterances started equal those of the plain translate-and-speak cascade |
| Transparency.TransparentWhenServed | cmd/interpreter/interpret.go:400-426 | if the slow path would always get through, guesses change nothing at all |
| Transparency.FinishTurnKeeps | cmd/interpreter/interpret.go:296-344 | by commit or by fallback, finishing a turn starts exactly the translation owed and keeps what is staged faithful |
| Transparency.CommitStagedKeeps | cmd/interpreter/interpret.go:348-393 | a commit plays exactly what the server held or starts nothing |
| Transparency.SlowPathKeeps | cmd/interpreter/interpret.go:400-426 | the fallback starts the translation owed, once, if translator and server do their part |
| Transparency.PreflightKeeps | cmd/interpreter/interpret.go:222-292 | staging starts nothing and stages only the translation of its source |
| Transparency.ListenerLanguageChange | cmd/interpreter/media.go:387-413 | a listener may change language without harm exactly when everything held for it translates alike into the old and the new one |
| Transparency.UnfaithfulAudioIsSpoken | cmd/interpreter/interpret.go:318-344 | held audio that is no longer the translation is spoken as it is |
| Transparency.HeldAcrossChange | cmd/interpreter/media.go:404-407 | changing language leaves alone what the peer staged for the participant |
| HeldAudio.HeldIsStaged | cmd/interpreter/interpret.go:478-583 | over every run in which no audio is left behind, all that the server holds on a participant's leg is staged by the peer, and never more than there is room for |
| HeldAudio.LeavesBehindIff | cmd/interpreter/interpret.go:222-393 | an event leaves held audio behind exactly when a commit of it is refused or its turn is guessed once more |
| HeldAudio.RefusedCommitIsLeft | cmd/interpreter/interpret.go:348-370 | a history in which a refused commit does |
| HeldAudio.ResumingDrops | cmd/interpreter/interpret.go:506-517 | when the speaker carries on, the turn's audio is held no more, here or at the server, and all other audio is untouched |
| HeldAudio.EndedTurnGoes | cmd/interpreter/interpret.go:296-370 | a turn that ends takes its audio along, played, revised or too late, unless the server refuses to play it; no other audio goes |
| HeldAudio.OldestGoes | cmd/interpreter/interpret.go:482-503 | with three staged the lowest turn goes, and nothing else |
| HeldAudio.ChangingDrops | cmd/interpreter/media.go:387-440 | whoever changes language or voice has nothing staged any more, and nothing of theirs is held for the peer |
| HeldAudio.SweepingDrops | cmd/interpreter/interpret.go:544-583 | the sweeper drops exactly what was staged before the cutoff, on either desk |
| HeldAudio.LosingLegDrops | cmd/interpreter/media.go:443-456 | a lost leg takes what its owner staged along |
| HeldAudio.GuessIsStaged | cmd/interpreter/interpret.go:222-292 | a guess is held for the listener's leg under a new id as the translation in the speaker's voice, staged and indexed |
| HeldAudio.ReadyGuessIsPlayed | cmd/interpreter/interpret.go:318-370 | a guess that is ready and right is played when its turn ends, whether or not the translator is up |
| HeldAudio.UnreadyGuessIsNotPlayed | cmd/interpreter/interpret.go:348-393 | one that does not become ready in time is not |
| HeldAudio.ReportMakesReady | cmd/interpreter/session.go:149-159 | the report that synthesis is done makes an indexed utterance ready, and nothing else |
| HeldAudio.EndedTurnIsNotGuessed | cmd/interpreter/interpret.go:470-476 | as long as the speaker stays, no turn that has ended is ever staged again |
| Voices.TurnIsSpokenOnce | cmd/interpreter/interpret.go:68-167 | over every run the utterances started are at most the accepted reports of a turn, and the final transcript of a speaker with turn events is no such report |
| Voices.VoicesAreAccountedFor | cmd/interpreter/interpret.go:452-468 | over every run what plays on a participant's leg is in flight or was refused to be stopped |
| Voices.OverlapIffUnstopped | cmd/interpreter/interpret.go:447-463 | two utterances sound at once exactly when one that was not stopped plays beside another |
| Voices.NeverTwoVoices | cmd/interpreter/interpret.go:447-463 | as long as no stop is refused at most one plays, the in-flight one |
| Voices.OverlapsIffStopRefused | cmd/interpreter/interpret.go:400-421 | an utterance starts over another exactly when the one in flight still played and its stop was refused |
| Voices.RefusedStopOverlaps | cmd/interpreter/interpret.go:460-462 | a history in which it does |
| Voices.GuessIsHeld | cmd/interpreter/interpret.go:222-292 | a history in which audio is held for a listener whose language may then not change |
| Interpreter.Participant.PutStaged | cmd/interpreter/session.go:106-111 | records a new entry under its turn and its id, and keeps the desk in order |
| Interpreter.Participant.TakeStaged | cmd/interpreter/session.go:116-122 | takes the turn's entry if there is one; its id is then no longer staged for any turn |
| Interpreter.Participant.ReleaseStaged | cmd/interpreter/session.go:125-132 | drops the id of an entry that was taken from the index, and keeps the desk in order |
| Interpreter.Participant.DropStaged | cmd/interpreter/session.go:135-145 | empties the turns given and returns their ids |
| Interpreter.Participant.MarkStagedReady | cmd/interpreter/session.go:149-159 | marks an indexed id ready, once |
| Interpreter.Engine.Preflight | cmd/interpreter/interpret.go:222-292 | updates the objects as the function of the theory does; if all that was held was the translation of its source, it still is |
| Interpreter.Engine.FinishTurn | cmd/interpreter/interpret.go:296-344 | the whole turn, commit and fallback included, updates the objects as the theory says, and leaves all that is held the translation of its source if it was |
| Interpreter.Engine.CommitStaged | cmd/interpreter/interpret.go:348-370 | commits, or refuses, with exactly the stated effect on leg and server |
| Interpreter.Engine.SlowPath | cmd/interpreter/interpret.go:400-426 | interrupts what plays, then translates and speaks |
| Interpreter.Engine.StopInflight | cmd/interpreter/interpret.go:452-463 | forgets what plays on the listener's leg, and stops it if the server does so |
| Interpreter.Engine.EvictOldest | cmd/interpreter/interpret.go:482-503 | makes room by discarding the least turn |
| Interpreter.Engine.DiscardStaged | cmd/interpreter/interpret.go:506-517 | discards one turn here and at the server |
| Interpreter.Engine.DiscardTurns | cmd/interpreter/interpret.go:522-583 | discards a set of turns here and at the server, one id after the other |
| Reconciler.SelectedLanguageRuns | cmd/interpreter/media.go:224-340 | over every interleaving in which legs come and go at safe moments, whenever no handler is under way a marked transcriber runs the selected language, at the server too, although a start makes two passes at most |
| Reconciler.BindingIsSafeIff | cmd/interpreter/session.go:522-537 | binding a new leg leaves every continuation settled once quiet if and only if a stop is pending, or no transcriber is marked nor about to be marked for the old leg |
| Reconciler.UnbindingIsSafeIff | cmd/interpreter/session.go:540-555 | losing a leg does if and only if a stop is pending or no transcriber is about to be marked for it |
| Reconciler.DoomedEndsUnsettled | cmd/interpreter/media.go:224-340 | otherwise running the handlers under way to their end marks a transcriber that is not on the participant's leg |
| Reconciler.LegLostInDialIsUnsettled | cmd/interpreter/media.go:264-308 | a history in which a leg lost during its dial leaves the next one marked and not transcribed, with nothing marked when that one came |
| Reconciler.StaleMarkBlocksNewLeg | cmd/interpreter/media.go:224-260 | through every run without a change of language, a stop or the loss of the leg, a leg bound under a stale mark is not transcribed |
| Reconciler.LanguageChangeRecovers | cmd/interpreter/media.go:387-413 | a change to another language then transcribes it in that language |
| Reconciler.SetLanguageKeeps | cmd/interpreter/media.go:387-413 | storing a language keeps the invariant because a start always follows |
| Detaching.StopStepIsTidy | cmd/interpreter/media.go:330-340 | no step of stopping leaves a transcriber on the participant's leg that is neither marked nor about to be stopped |
| Reconciler.SecondPassCatchesUp | cmd/interpreter/media.go:228-260 | a change of language during the first dial is caught up with by the same handler in its second pass |
| Detaching.AttachedIffMarked | cmd/interpreter/media.go:224-340 | over every interleaving in which legs come and go at safe moments and no stop is refused, once no handler is under way a transcriber is attached to the participant's leg if and only if one is marked |
| Detaching.StoppedIsDetached | cmd/interpreter/media.go:330-340 | after a stop that no start was under way before and none begins after, none is attached |
| Transcription.MediaManager.StartSTT | cmd/interpreter/media.go:224-260 | afterwards a marked transcriber is attached to the live leg and runs the selected language, unless the selection changed during both passes |
| Transcription.MediaManager.DialSTT | cmd/interpreter/media.go:264-301 | one dial, with a stop and a retry on a conflict, and the mark that fits its outcome |
| Transcription.MediaManager.StopSTTOnLeg | cmd/interpreter/media.go:319-327 | detaches the leg's transcriber |
| DialplanGraph.FindNode | cmd/pbx/dialplan_graph.go:78-85 | the first node with the id, or none if no node has it |
| DialplanGraph.EdgeTo | cmd/pbx/dialplan_graph.go:98-105 | the target of the first edge that leaves by the port, or nothing |
| DialplanGraph.ListHasFields | cmd/pbx/main.go:439-454 | a list has as parts what stands between its commas, without surrounding blanks, where anything does |
| DialplanGraph.NumberReadsBack | cmd/pbx/dialplan_engine.go:151 | a number is read back from how it is written |
| DialplanPath.WalkIsPath | cmd/pbx/dialplan_engine.go:111-190 | a walk ends as it does if and only if a path over first edges, on which each node is left by its own port, leads to a node where walks end so |
| DialplanPath.MatchMeans | cmd/pbx/dialplan_engine.go:193-211 | a match node is left by its match port exactly if its trunk is the call's or none, and the number called is any, equal, begins so or is accepted by the expression |
| DialplanPath.VisitSaysSo | cmd/pbx/dialplan_engine.go:111-400 | each kind of node is left by the port, or stops the walk in the way, that its parameters, the call and what can be reached say |
| DialplanPath.ReadmitsIff | cmd/pbx/dialplan_engine.go:218-230 | a walk puts the call back on the register exactly if it passes a ringing node where nobody was there |
| StepGuard.WalkBound | cmd/pbx/dialplan_engine.go:43 | with no restart loop every walk ends within 51 visits for each restarting node and 51 more |
| StepGuard.StretchEnds | cmd/pbx/dialplan_engine.go:111-116 | restarts still to come, then steps left, decrease along every walk |
| StepGuard.WalksEndIff | cmd/pbx/dialplan_engine.go:111-116 | every walk ends if and only if no restarting node is back at itself within the guard's reach |
| StepGuard.LoopNeverEnds | cmd/pbx/dialplan_engine.go:244-247 | on such a loop no number of visits ends the walk |
| DialplanWalk.RestartsExactly | cmd/pbx/dialplan_engine.go:218-357 | the count restarts exactly at blank prompts and, with a noanswer edge, at forward nodes that cannot be dialled and at ext nodes without a target or with only such left as decline on the spot |
| DialplanWalk.WalkEndsInTime | cmd/pbx/dialplan_engine.go:111-190 | if no such node lies on a cycle, every synchronous walk ends after at most 51 * (R + 1) visits |
| DialplanWalk.WalksEndExactly | cmd/pbx/dialplan_engine.go:111-190 | the exact condition for a plan, with the same bound |
| DialplanWalk.BlankPlayLoops | cmd/pbx/dialplan_engine.go:353-358 | a blank audio node wired to itself walks for ever |
| DialplanWalk.DecliningExtLoops | cmd/pbx/dialplan_fork.go:159-216 | so does an ext node wired to itself whose phone cannot be dialled and whose browser is not to be disturbed |
| DialplanWalk.WalkStopFits | cmd/pbx/dialplan_engine.go:111-190 | a walk asks to answer only an unanswered call, and plays or gathers only on an answered one |
| Gather.KeysSubmitFirst | cmd/pbx/dialplan_gather.go:98-144 | pressing any keys submits at the first `#`, wired option or full length, exactly what stands entered since the last `*` |
| Gather.DiallingReachesOption | cmd/pbx/dialplan_gather.go:115-131 | dialling a wired digit option submits it if and only if no shorter beginning is an option and it is not longer than the digit limit |
| Gather.OptionIsFollowed | cmd/pbx/dialplan_gather.go:178-192 | a submitted option leads along its first edge, or to the default if that leads nowhere |
| DialplanExec.OneContinuation | cmd/pbx/dialplan_engine.go:403-469 | over every run at most one continuation is outstanding, no more are used up than were made, the leg is answered at most once, an open menu has its timer |
| DialplanExec.OnlyAwaitedResumes | cmd/pbx/dialplan_engine.go:417-462 | an event uses up the continuation that waits for it, once, and no event uses up another |
| DialplanExec.StalePromptDoesNothing | cmd/pbx/dialplan_engine.go:445-454 | a prompt that was played never moves the call on again, whatever happened since |
| DialplanExec.StaleTimerDoesNothing | cmd/pbx/dialplan_gather.go:81-92 | the timer of a menu that is over never submits, whatever happened since |
| DialplanExec.HandledPromptIsSpent | cmd/pbx/dialplan_engine.go:445-461 | handling the end of a prompt uses it up |
| DialplanExec.SubmittedMenuIsOver | cmd/pbx/dialplan_gather.go:149-166 | submitting ends the menu for its timer, even if the next node opens another |
| DialplanExec.NoWalkIsLost | cmd/pbx/dialplan_engine.go:111-190 | with plans free of restart loops no handler of any run walks for ever |
| DialplanResume.CallWalksPath | cmd/pbx/dialplan_engine.go:111-190 | a call is left where the path from the node ends |
| DialplanResume.AnsweredGoesOn | cmd/pbx/dialplan_engine.go:403-426 | once the leg is connected, the node that had it answered is entered again |
| DialplanResume.PlayedGoesOn | cmd/pbx/dialplan_engine.go:353-461 | once the prompt has been played, the call goes on from where its node leads |
| DialplanResume.WaitedGoesOn | cmd/pbx/dialplan_engine.go:150-172 | once the time is over, the call goes on where the wait node leads then |
| DialplanResume.UnansweredGoesOn | cmd/pbx/dialplan_engine.go:218-230 | when nobody has answered, the call is on the register again and goes on where the node leads then |
| DialplanResume.MenuOpens | cmd/pbx/dialplan_gather.go:20-94 | a menu opens as its node says, with nothing entered, a new generation and its timer |
| DialplanResume.SubmittedGoesOn | cmd/pbx/dialplan_gather.go:149-193 | what is submitted leads along its own first edge, else along the first default edge, and if neither leads anywhere the call is rejected |
| DialplanResume.TimeOverGoesOn | cmd/pbx/dialplan_gather.go:81-92 | when the time of the menu is over, what stands entered is submitted |
| DialplanResume.OthersLeaveItWaiting | cmd/pbx/dialplan_engine.go:417-462 | whatever a call waits for, it goes on waiting for through any other event |
| DialplanResume.EndedCallStaysEnded | cmd/pbx/dialplan_engine.go:344-347 | off the register and waiting for nothing, a call stays so through every run |
| DialplanCall.Exec.Answer | cmd/pbx/dialplan_engine.go:406-414 | on a call that is not answered and waits for nothing, makes the leg's connection the one continuation; a refusal takes the call off the register |
| DialplanCall.Exec.Gather | cmd/pbx/dialplan_gather.go:20-94 | opens a menu with a fresh entry, a new generation and its timer, as the one continuation |
| DialplanCall.Exec.Land | cmd/pbx/dialplan_engine.go:111-190 | what the last node of a walk leaves behind: at most one continuation |
| DialplanCall.Exec.WalkOn | cmd/pbx/dialplan_engine.go:111-190 | walks and does what the last node says |
| DialplanCall.Exec.OnConnected | cmd/pbx/dialplan_engine.go:417-426 | answered from now on; the recorded node is entered once |
| DialplanCall.Exec.OnPromptFinished | cmd/pbx/dialplan_engine.go:430-462 | moves on only from the prompt that is waited for |
| DialplanCall.Exec.OnDTMF | cmd/pbx/dialplan_gather.go:98-144 | one key of an open menu |
| DialplanCall.Exec.Submit | cmd/pbx/dialplan_gather.go:149-193 | closes the menu and follows the value's edge, the default edge or the rejection |
| Gather.GatherOptions | cmd/pbx/dialplan_gather.go:230-238 | exactly the ports wired out of the node, but for the default |
| Gather.OptionsInEdgeOrder | cmd/pbx/dialplan_gather.go:230-238 | they are listed in the order of the edges and as often as they are wired |
| DialplanExec.HeardOptionIsWired | cmd/pbx/dialplan_gather.go:213-219 | whatever speech submits has an edge of its own |
| DialplanCall.Recognise | cmd/pbx/dialplan_gather.go:210-224 | a final transcript is heard as the option the matcher gives, or as nothing exactly when no tier matches |
| DialplanCall.Exec.OnSTT | cmd/pbx/dialplan_gather.go:199-226 | in a menu that listens, submits the option the transcript is heard as |
| DialplanCall.Exec.OnGatherTimeout | cmd/pbx/dialplan_gather.go:81-92 | submits what stands entered, in the menu of its own generation |
| DialplanCall.Exec.OnWaitOver | cmd/pbx/dialplan_engine.go:160-172 | goes on from the wait node once |
| DialplanCall.Exec.OnNoAnswer | cmd/pbx/dialplan_engine.go:222-230 | puts the call back on the register and follows the noanswer edge once |
| Fork.WinnerStays | cmd/pbx/dialplan_fork.go:243-263 | once a candidate has won no other does, whatever interleaves |
| Fork.OneOutcome | cmd/pbx/dialplan_fork.go:243-425 | with a winner the caller never goes down the no-answer path, without one exactly once, exactly when the last candidate has left |
| Fork.DeclinesAreLastIff | cmd/pbx/dialplan_fork.go:210-216 | candidates that decline on the spot take the caller down the no-answer path at once if and only if they are all there are |
| Fork.OthersAreDropped | cmd/pbx/dialplan_fork.go:268-283 | when all is done every other browser and remaining candidate has been told to stop |
| Fork.NobodyKeepsRinging | cmd/pbx/dialplan_fork.go:382-425 | when all have left unanswered every browser has been told and the caller has gone on once |
| Fork.RingTimeEnds | cmd/pbx/dialplan_fork.go:221-237 | after the end of the ring time without a winner, when all is done every browser that was listed is off the list and has been told, and if nobody is left the caller has gone on exactly once |
| Fork.OnlyPhonesRingOn | cmd/pbx/dialplan_fork.go:221-237 | if only its tasks are done, exactly the phones that were listed still ring |
| Fork.RingTimeAfterWin | cmd/pbx/dialplan_fork.go:222-226 | once somebody has won it changes nothing |
| Fork.WinnerDroppedIff | cmd/pbx/dialplan_fork.go:246-257 | when all is done the winner has been dropped exactly under the three conditions recorded |
| Fork.WinnerDroppedIffEvent | cmd/pbx/dialplan_fork.go:243-376 | over the events of a run: exactly if, while it was listed, the caller gave up, it answered for a caller who could not be answered, or it answered after it had won |
| Fork.WinnerIsLeftAlone | cmd/pbx/dialplan_fork.go:243-334 | with one answer for each leg and a caller who stays and can be answered, the winner is never dropped |
| Fork.AnsweringTwiceDropsWinner | cmd/pbx/dialplan_fork.go:246-257 | a run in which its answer is handled twice |
| Fork.CallerLeavingDropsWinner | cmd/pbx/dialplan_fork.go:349-376 | a run in which the caller gives up before the answer is handled |
| Fork.RefusedCallerDropsWinner | cmd/pbx/dialplan_fork.go:291-306 | a run in which the caller cannot be answered |
| ForkGroups.Group.OnConnected | cmd/pbx/dialplan_fork.go:243-334 | the first answer wins and all others are to be dropped; a later one is dropped |
| ForkGroups.Group.OnCandidateGone | cmd/pbx/dialplan_fork.go:382-425 | removes a candidate, and reports nobody answering with the last |
| ForkGroups.Group.OnRingTime | cmd/pbx/dialplan_fork.go:221-237 | the ring time of every browser among the candidates is over, unless somebody won |
| ForkGroups.Group.OnCallerGone | cmd/pbx/dialplan_fork.go:349-376 | all candidates are to be dropped; the group is not marked as decided |
| ForkGroups.Registry.Add | cmd/pbx/dialplan_fork.go:63-70 | the caller's leg and every candidate's lead to the group, no other routing changes |
| ForkGroups.Registry.Remove | cmd/pbx/dialplan_fork.go:87-95 | exactly the legs that led to the group lead nowhere |
| Transfers.IndexesStayInverse | cmd/contact-centre/transfer.go:62-154 | the two indexes stay each other's inverse, so a call has at most one transfer in flight |
| Transfers.OneOutcome | cmd/contact-centre/transfer.go:109-185 | a transfer takes at most one of completed, cancelled and failed, once, so it is finalized at most once |
| Transfers.CompletedHow | cmd/contact-centre/transfer.go:109-142 | over every run a blind transfer is completed only by the claim of a target, an attended one only by Complete while in consultation |
| Transfers.MovesAsAsked | cmd/contact-centre/transfer.go:109-185 | a transfer enters the state an event about it asks for, if it may; otherwise it stays as it is, and only a claim sets the target's leg |
| Transfers.OutcomeIsAsked | cmd/contact-centre/transfer.go:109-185 | over every run the outcome of a transfer is the one asked for, exactly when it could still be |
| Transfers.CreatedIfComplete | cmd/contact-centre/transfer.go:62-98 | a request is registered as it is exactly if it is complete and its call has none |
| Transfers.TransferRegistry.Add | cmd/contact-centre/transfer.go:62-98 | registers a complete request for a call without a transfer, and nothing else |
| Transfers.TransferRegistry.Claim | cmd/contact-centre/transfer.go:109-123 | succeeds exactly on a ringing transfer |
| Transfers.TransferRegistry.Finish | cmd/contact-centre/transfer.go:133-142 | succeeds exactly on a consulting transfer |
| Transfers.TransferRegistry.CallOff | cmd/contact-centre/transfer.go:161-185 | cancels or fails exactly a ringing or consulting transfer |
| Transfers.TransferRegistry.Remove | cmd/contact-centre/transfer.go:145-154 | clears both indexes |
| Transfers.TransferRegistry.ByCall | cmd/contact-centre/transfer.go:202-215 | the call's transfer exactly if it has one |
| HandOff.NoHangUpWhileHandingOver | cmd/contact-centre/main.go:568-594 | from the claim until the loop watches the new leg, the old leg's disconnect reaches the customer only if the transfer was created after the loop had looked for one and is not on the call yet |
| HandOff.HangUpMeansAgentLeft | cmd/contact-centre/main.go:568-597 | otherwise a hang-up means that the agent on the call dropped and nobody is taking over |
| HandOff.CreatedBetweenTheLooks | cmd/contact-centre/main.go:579-590 | the run in which the customer is lost |
| HandOff.OrderMatters | cmd/contact-centre/transfer_handlers.go:372-420 | settling before the call gets its new agent would lose the customer |
| HandOff.LoopFollowsAgent | cmd/contact-centre/registry.go:144-169 | unless one hand-off overtakes the waiting signal of another, the loop comes to watch the agent on the call |
| HandOff.TakenSignalIsWatched | cmd/contact-centre/main.go:599-613 | it comes to do so by taking the signal that waits |
| HandOff.OvertakenLoopWatchesAnother | cmd/contact-centre/registry.go:158-163 | at the first overtaking it is left to watch somebody else |
| HandOff.HandOffsOvertake | cmd/contact-centre/registry.go:158-163 | the run of two quick hand-offs in which the second overtakes |
| HandOff.AbandonedForEver | cmd/contact-centre/transfer_handlers.go:488-499 | a transfer left behind stays in the register through every run |
| HandOff.LeavesRegisterIff | cmd/contact-centre/transfer_handlers.go:236-499 | a transfer in flight can still leave the register, by some run, if and only if it is not a completed consultation whose call is gone |
| HandOff.ConsultationIsAbandoned | cmd/contact-centre/transfer_handlers.go:488-499 | the run in which the customer leaves between completion and lookup |
| CallRegistry.PlacesAreRanks | cmd/contact-centre/registry.go:363-373 | after any operations every call stands at its 1-based rank among the queued calls in ringing order, others at 0 |
| CallRegistry.ClaimMovesUp | cmd/contact-centre/registry.go:189-213 | claiming moves up by one exactly those queued behind |
| CallRegistry.RemoveMovesUp | cmd/contact-centre/registry.go:265-276 | removing moves up by one exactly those queued behind a queued call |
| CallRegistry.QueueingMovesBack | cmd/contact-centre/registry.go:102-114 | joining the queue moves back by one exactly the queued calls that rang later |
| CallRegistry.ClaimWrites | cmd/contact-centre/registry.go:189-213 | a claim puts agent, name, leg and time on a queued call and leaves any other alone |
| CallRegistry.HandOverWrites | cmd/contact-centre/registry.go:144-169 | a hand-over puts the new agent on the call, takes it off hold and keeps the last agent's name |
| CallRegistry.HoldWrites | cmd/contact-centre/registry.go:120-136 | holding writes the flag and the music, unless it is so already |
| CallRegistry.QueueingWrites | cmd/contact-centre/registry.go:102-114 | queueing writes the state and the room |
| CallRegistry.Registry.Assign | cmd/contact-centre/registry.go:363-373 | the loop puts every call at its rank and changes nothing else |
| CallRegistry.Registry.Queue | cmd/contact-centre/registry.go:102-114 | queues the call and ranks all |
| CallRegistry.Registry.Take | cmd/contact-centre/registry.go:189-213 | succeeds exactly on a queued call |
| CallRegistry.Registry.HandOver | cmd/contact-centre/registry.go:144-169 | rewrites the agent and remembers the last one's name |
| CallRegistry.Registry.Hold | cmd/contact-centre/registry.go:120-136 | succeeds exactly if the call is there and not in that state already |
| CallRegistry.Registry.Drop | cmd/contact-centre/registry.go:265-276 | removes the call and ranks the rest |
| WakeUps.NoLostWakeUp | cmd/contact-centre/registry.go:340-382 | over every run a panel that waits with an empty trigger last read the calls as they are |
| WakeUps.SilentChangesNothing | cmd/contact-centre/registry.go:120-213 | an operation that tells no subscriber changes no call |
| WakeUps.TellsUnlessRefused | cmd/contact-centre/registry.go:120-213 | an operation tells the subscribers unless it is refused |
| WakeUps.OneMoreReadIsEnough | cmd/contact-centre/main.go:862-886 | however many changes came as one signal, one more round of the loop shows the last of them |
| CallLog.MemStore.Append | cmd/contact-centre/calllog.go:88-97 | the ring goes on holding the newest entries of the whole history |
| CallLog.MemStore.List | cmd/contact-centre/calllog.go:99-120 | answers the newest entries, newest first, as many as the limit, the ring and the history allow |
| CallLog.RedisStore.Append | cmd/contact-centre/calllog_redis.go:57-68 | push and trim keep the newest entries of the whole history |
| CallLog.RedisStore.List | cmd/contact-centre/calllog_redis.go:70-92 | answers the same listing from the stored list |
| CallLog.SameAnswers | cmd/contact-centre/calllog.go:57-120 | both stores answer alike for the same entries, capacity and limit |
| Metrics.ComputeMetrics | cmd/contact-centre/metrics.go:31-111 | the two loops compute the figures defined by sums and maxima over the log and the queue |
| Metrics.LongestIsGreatest | cmd/contact-centre/metrics.go:71-107 | the longest wait is the greatest over entries in the window and calls queued now, and zero without any above |
| Metrics.FiguresMean | cmd/contact-centre/metrics.go:31-111 | shares and averages are those of the numbers of entries answered, given up and answered in time, and of the sums of their times |
| Metrics.Bounds | cmd/contact-centre/metrics.go:85-108 | service level and abandon rate never exceed 100 together, the average speed of answer never the longest wait |
| Metrics.OrderIsIrrelevant | cmd/contact-centre/metrics.go:31-111 | permuting the log or the calls changes no figure |
| Metrics.OldEntriesAreIrrelevant | cmd/contact-centre/metrics.go:56-59 | dropping entries from before the window changes no figure |
| TranslationCache.HoldsTheNewest | cmd/interpreter/translate.go:182-197 | the keys held are without repetition the newest 512 that went in, in order |
| TranslationCache.HitIsAReply | cmd/interpreter/translate.go:162-180 | a hit is an answer the service gave to exactly this text and these languages |
| TranslationCache.HeldStaysTheSame | cmd/interpreter/translate.go:182-186 | while a key is held, it is held with the answer it went in with |
| TranslationCache.KeyIsInjective | cmd/interpreter/translate.go:163 | with NUL-free codes one key means one request |
| TranslationCache.TellsApartIff | cmd/interpreter/translate.go:163 | with languages from a set of codes the key tells requests apart exactly when no pair's header begins another's |
| TranslationCache.NulFreeIsPrefixFree | cmd/interpreter/translate.go:163 | NUL-free codes, which all supported ones are, are such a set |
| TranslationCache.CachingTranslator.Translate | cmd/interpreter/translate.go:162-173 | a hit leaves the cache alone, a failure stores nothing, and every answer is one of the service's |
| TranslationCache.CachingTranslator.PutKey | cmd/interpreter/translate.go:182-197 | stores a new key, dropping only the oldest when full |
| Floor.OneSpeaker | cmd/ptt/floor.go:49-174 | in every reachable state a room's only speaker is the present holder, all others there listen, without a burst nobody has a role or a leg and there is no media room, an un-muted leg bound to a session is the holder's, legs and sessions lead to each other |
| Floor.OnlyTheHolderIsHeard | cmd/ptt/floor.go:137-174 | over every run without second offers, whatever un-muted leg the server has in any room is the holder's |
| Floor.OfferKeepsBoundIff | cmd/ptt/floor.go:155-171 | an offer leaves a leg in the room that is nobody's exactly when the session's old leg is still there |
| Floor.TeardownMends | cmd/ptt/floor.go:116-132 | tearing a free room down makes it fit whatever state it was in |
| Floor.LateTeardownFitsIff | cmd/ptt/floor.go:99-112 | after a release, any handlers and the late teardown, everything fits if and only if nobody has taken the floor meanwhile |
| Floor.PressDuringTeardown | cmd/ptt/floor.go:107-109 | somebody can, and is left without a role |
| FloorLaws.PressTakesFloor | cmd/ptt/floor.go:49-90 | a free floor goes to whoever asks, who then speaks while all others in the room listen; a taken one stays |
| FloorLaws.ReleaseEndsBurst | cmd/ptt/floor.go:99-132 | the holder's release ends the burst: no roles, no legs, no media room |
| FloorLaws.OfferIsHeardFromHolder | cmd/ptt/floor.go:137-174 | an offered leg is the session's, and muted unless the session holds the floor |
| FloorLaws.LostLegIsGone | cmd/ptt/floor.go:252-259 | a lost leg is gone, and with the holder's the burst |
| FloorLaws.LeavingIsGone | cmd/ptt/floor.go:236-247 | who leaves is gone with the leg, and with the burst if it was theirs |
| FloorLaws.OtherRoomsDoNotNotice | cmd/ptt/floor.go:49-259 | an event leaves all other rooms as they are |
| FloorManager.Manager.OnPress | cmd/ptt/floor.go:49-90 | grants a free floor and gives every member its role |
| FloorManager.Manager.Grant | cmd/ptt/floor.go:79-85 | one member after the other: the holder speaks, the others listen |
| FloorManager.Manager.Silence | cmd/ptt/floor.go:118-127 | one member after the other loses leg and role |
| FloorManager.Manager.TearDown | cmd/ptt/floor.go:116-132 | no member keeps a leg or a role and the media room is gone with all it held |
| FloorManager.Manager.EndBurstIfHolder | cmd/ptt/floor.go:99-112 | ends the burst exactly for its holder |
| FloorManager.Manager.OnOffer | cmd/ptt/floor.go:137-174 | binds a leg during a burst, muted for listeners |
| FloorManager.Manager.OnJoin | cmd/ptt/floor.go:221-231 | who enters during a burst listens |
| FloorManager.Manager.OnLeave | cmd/ptt/floor.go:236-247 | the holder takes the burst along, anybody else only its leg |
| FloorManager.Manager.OnLegGone | cmd/ptt/floor.go:252-259 | the speaker's leg takes the burst along |

## Left out

- HTTP, WebSocket and WebRTC signalling, login, templates, timers as real time, and the VoiceBlender, DeepL, speech and Redis services themselves: they appear as parameters, fresh ids and refusals.
- Transparency.SpeculationIsTransparent: handlers that overlap are not covered, and the translator is a function of text and languages when it succeeds; interleavings are covered by StagedOwnership.SingleOwnership instead. A refused discard is not told apart: it leaves held audio that nothing refers to.
- DialplanExec.OneContinuation: one step for each handler and one plan for each event; what the runtime does for a leg that has died is allowed but not promised to end. For a walk, which legs the server makes and which browsers are still signed in is part of the plan.
- Floor.OneSpeaker: one step for each handler; sessions are values in a map, so aliasing of session objects is not captured; deleting a leg or a room at the server is assumed to work, where the program only logs a failure and tolerates a leftover room.
- TranslationCache.CachingTranslator.Translate: demands NUL-free codes; the program receives only codes from its list of supported languages.
- Fork.OneOutcome: starts when the group is registered with its candidates; ringing the phones before that is not part of this model.
- HandOff: the call loop and the transfer handlers are steps on values, because they interleave; their registries are classes in Transfers and CallRegistry. Room and hold-music commands are left out, and so is who may start or answer a transfer.
- Interpreter: readiness of staged audio is a set of ids rather than a channel on a shared object, and the sweeper's grouping of sessions is not modelled.
- SpeechMatch.MatchSpeech: ASCII letters, digits and spaces; there the program's byte counts and character counts agree.
- DialplanGraph: regular expressions are an abstract predicate, trunk and extension tables are parameters of a plan.
- The interpreter's session registry and its leg index, the intercom registry, the standalone voice menu, token and cookie handling, tenants and trunks: more of the same shapes.
- CallLog.RedisStore.List: encoding is taken to be lossless and the server reachable.
- Metrics.Bounds: exact arithmetic in place of floating point.

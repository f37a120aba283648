# Study Buddy Hub, modelled in Dafny

This project models the logic of Study Buddy Hub, a study companion. It has a webcam focus
tracker, a Pomodoro timer, an app blocker page and a Python backend that gives session
advice, study statistics and chat answers. The model covers these parts:

- **The focus tracker's frame step** (`src/components/FocusTracker.tsx`). Each frame it:
  - smooths head yaw and pitch (0.2 of the new sample, 0.8 of the previous value);
  - sorts the pose into three branches: looking down at a phone, centred, or elsewhere;
  - scores facial blendshapes into an emotion;
  - keeps a 300-frame focus history and a 20-frame emotion buffer, dropping the oldest entry on overflow;
  - shows the mode of the emotion buffer as the stable emotion;
  - speaks at most one coaching message every 50 seconds;
  - runs a session analysis every 10 seconds and an object detection every 2 seconds;
  - shares one 15-second limiter between the two phone-warning paths.

  Modules `Pose`, `Expression`, `Stabilizer`, `Coaching` and `Tracker` hold this. The
  tracker's refs and state are the fields of the class `Tracker.FocusSession`. Its methods
  are each proved equal to one phase of a pure transition (`Tracker.Next`). The invariant
  `Tracker.Inv` holds after every frame. It says the buffers stay within capacity, the
  displayed emotion is the buffer's mode, and every spoken message respected its rate limit.
- **Session advice** (`backend/analysis_service.py`, module `AnalysisService`). The rules
  are low focus, overtime against the preferred duration, and late night. The last rule
  that applies wins.
- **Study analytics** (`backend/analytics_service.py`, module `Analytics`):
  - the day streak;
  - the summary statistics and the week-on-week improvement;
  - the best study hour and the best session length;
  - the hour formatter;
  - the per-weekday chart data.

  Database results are passed in as a sequence of sessions.
- **The Pomodoro timer page** (`src/pages/Timer.tsx`, module `TimerPage`). It is a class
  with tick, play/pause, reset and mode buttons, plus the `MM:SS` formatter and the
  progress figure.
- **The chat service** (`backend/chat_service.py`, module `Chat`):
  - routing between an external model and the local pattern table;
  - the error-prefix fallback;
  - first-match lookup on the lower-cased message;
  - the preference-ordered Gemini model discovery and its default.
- **The app blocker page** (`src/pages/Apps.tsx`, module `AppsPage`): the block toggle,
  the blocked count, the limit badge and the category colours.

Shared helpers:
- `Wrappers`: an `Option`.
- `Text`: decimal strings, padding, substring search and ASCII lower case.
- `Seqs`: first index, first-occurrence keys, and the bounded push.

How the model treats the outside world:
- Time (`now`, in milliseconds) is a parameter.
- `Math.random` draws are values in [0, 1).
- Face landmarks, blendshapes, object detections, the analysis reply and external LLM
  replies are inputs.
- Speech, toasts, WebSocket messages and analysis requests become an append-only output log.

Where the code and the repository's written description disagree, the model follows the code:

- **Stabilizer tie-break.** The description says a tie goes to the category inserted first.
  The code's `reduce` keeps the later key on a tie. `Stabilizer.TieGoesToLaterKey` proves
  that `[a, b, a, b]` stabilizes to `b`.
- **Two neutral values.** A face without blendshapes keeps the plain "Neutral". The scored
  path yields the emoji-labelled neutral. These are two different buffer keys
  (`Expression.Neutral` and `Expression.NeutralScored`).
- **Captured status.** Coaching reads the status captured by the frame callback, not the
  status set in this frame. It is an input that may still be `Loading`. The Hydration and
  Rewards fillers are reachable only then.

## Model

| member | source | states |
|---|---|---|
| Pose.Smooth | src/components/FocusTracker.tsx:197-198 | the smoothed value lies between the raw sample and the previous value, closes 0.2 of the gap (the remaining gap is 0.8 of the old one), and equals the previous value iff the sample does |
| Pose.SmoothGap | src/components/FocusTracker.tsx:197-198 | one smoothing step scales the signed gap to the raw sample by 0.8 |
| Pose.SmoothedAfterGap | src/components/FocusTracker.tsx:197-202 | after n frames of a constant sample, the gap to it is the initial gap shrunk n times by 0.8 |
| Pose.ShrunkIsDecay | src/components/FocusTracker.tsx:197-198 | shrinking a gap n times equals multiplying it by 0.8 to the power n |
| Pose.SmoothedAfterMonotone | src/components/FocusTracker.tsx:197-202 | under a constant sample the smoothed value approaches it monotonically from its own side and never overshoots |
| Pose.RawYaw | src/components/FocusTracker.tsx:190-193 | the raw yaw is non-negative, times the eye distance it gives the nose-to-left-eye distance, and a nose midway between the eyes gives 0.5 |
| Pose.RawPitch | src/components/FocusTracker.tsx:194 | the raw pitch is the nose's vertical coordinate (no contract; it feeds `Smooth`) |
| Pose.Branch | src/components/FocusTracker.tsx:206-253 | exactly one branch is taken: looking down iff pitch > 0.65; centred iff 0.35 < yaw < 0.65 and 0.25 <= pitch <= 0.65; elsewhere in every other case |
| Pose.BranchBoundaries | src/components/FocusTracker.tsx:206-213 | every threshold is strict as written: yaw 0.35 and 0.65 are not centred, pitch 0.65 and 0.25 are still level |
| Pose.PitchJumpReachesDownOnThirdFrame | src/components/FocusTracker.tsx:197-216 | from the centred start, a jump of the raw pitch to 0.9 is classified as looking down only on the third frame |
| Pose.StatusOf | src/components/FocusTracker.tsx:216-253 | a face never leaves the status Loading, and the status is Focused iff the centred branch ran |
| Pose.FocusScore | src/components/FocusTracker.tsx:223-250 | a telemetry message carries a focus score of 0, 50 or 100 |
| Pose.TelemetryOf | src/components/FocusTracker.tsx:219-252 | the message a face sends scores 100 iff centred and 0 iff looking down, and is never "away" |
| Expression.GetScore | src/components/FocusTracker.tsx:263 | an absent name scores 0; a present one scores as its first occurrence in the list |
| Expression.ComputeScores | src/components/FocusTracker.tsx:265-283 | without blendshapes every score is 0 except the head-droop bonus of fatigue |
| Expression.ScoresInRange | src/components/FocusTracker.tsx:265-283 | with every blendshape score in [0, 1], smile and overwhelm lie in [0, 2], fatigue and confusion in [0, 1] |
| Expression.FatigueDroop | src/components/FocusTracker.tsx:266-283 | a smoothed pitch above 0.65 adds exactly 0.2 to fatigue and changes no other score |
| Expression.NoBlendshapesIsNeutral | src/components/FocusTracker.tsx:262-296 | with every blendshape absent, the chain falls through to the scored neutral |
| Expression.SelectEmotion | src/components/FocusTracker.tsx:286-296 | the chosen emotion is the first in priority order (happy, overwhelmed, fatigued, confused) whose threshold fires, else the scored neutral when none fires |
| Expression.FaceEmotion | src/components/FocusTracker.tsx:162-297 | a face never yields "Searching...", and yields the plain "Neutral" iff its blendshapes are missing |
| Seqs.IndexOf | src/components/FocusTracker.tsx:263 | the index of the first occurrence of an element |
| Seqs.KeysInOrder | src/components/FocusTracker.tsx:314-316 | the counts dictionary's keys are the buffer's distinct entries in first-occurrence order |
| Seqs.KeysArePrefix | src/components/FocusTracker.tsx:314-315 | a key is present iff it occurs in the part of the buffer counted so far |
| Seqs.KeyOrderDistinct | src/components/FocusTracker.tsx:314-316 | first-occurrence keys are pairwise distinct |
| Seqs.Window | src/components/FocusTracker.tsx:306-311 | the last min(length, capacity) entries of a sequence |
| Seqs.WindowPush | src/components/FocusTracker.tsx:306-311 | after a push the buffer stays within capacity, ends with the new entry, and drops exactly the oldest entry when it was full |
| Seqs.PushShift | src/components/FocusTracker.tsx:306-311 | the push-then-shift-once update computes the bounded push |
| Seqs.PushIsWindow | src/components/FocusTracker.tsx:306-311 | on a buffer within capacity, push-then-shift-once keeps the newest entries up to the capacity |
| Stabilizer.LastMaxPosition | src/components/FocusTracker.tsx:316 | the reduce returns a key of maximal count, with every later key counted strictly less |
| Stabilizer.LastMaximumIsStable | src/components/FocusTracker.tsx:316 | the last key of maximal count in first-occurrence order is the stable mode |
| Stabilizer.ModeIsStable | src/components/FocusTracker.tsx:313-317 | the displayed emotion occurs in the buffer with maximal count, and every entry counted as often appears first earlier in the buffer |
| Stabilizer.StableModeUnique | src/components/FocusTracker.tsx:313-317 | the stable mode of a buffer is unique |
| Stabilizer.TieGoesToLaterKey | src/components/FocusTracker.tsx:316 | a 2-2 tie such as [Happy, Confused, Happy, Confused] stabilizes to the later key and not the earlier one |
| Stabilizer.CountedStep | src/components/FocusTracker.tsx:315 | counting one more entry adds 1 to its count, starting from 0 when it is absent, and appends it to the keys when it is new |
| Stabilizer.CountedAll | src/components/FocusTracker.tsx:314-315 | a full count has the first-occurrence keys with each key's number of occurrences |
| Stabilizer.CountEntries | src/components/FocusTracker.tsx:314-315 | the forEach builds a dictionary counting each entry's occurrences, keyed in first-occurrence order |
| Stabilizer.ReduceToMax | src/components/FocusTracker.tsx:316 | the reduce loop returns the key the comparison chain selects (the last maximal count) |
| Stabilizer.Dominant | src/components/FocusTracker.tsx:313-317 | counting then reducing a non-empty buffer returns its mode |
| Coaching.CoachCategory | src/components/FocusTracker.tsx:323-338 | priority is overwhelmed, fatigued, confused, then happy-and-focused, focused, distracted; each category is chosen iff its condition holds and no earlier one does; no category only under a Loading status with no critical emotion |
| Coaching.PickIndex | src/components/FocusTracker.tsx:343 | floor(r * n) is a valid index, and the draw falls in its slot |
| Coaching.Message | src/components/FocusTracker.tsx:9-59 | the voice-message table, line by line (no contract; `CoachMessage` states how a line is picked) |
| Coaching.CoachMessage | src/components/FocusTracker.tsx:340-356 | a category speaks a message picked from its own list; without one, a filler is spoken iff the first draw exceeds 0.8, Hydration when the second exceeds 0.5 and Rewards otherwise |
| Coaching.FillersOnlyWhileLoading | src/components/FocusTracker.tsx:346-355 | a Hydration or Rewards message is only ever spoken while the captured status is Loading and the emotion is not critical |
| Tracker.Utterance | src/components/FocusTracker.tsx:394-452 | spoken advice is the advice's description, and the object warning names the object seen |
| Tracker.Perceive | src/components/FocusTracker.tsx:164-298 | the frame's smoothed pose, branch and emotion (no contract of its own; `PerceptionFacts` states its properties) |
| Tracker.PerceptionFacts | src/components/FocusTracker.tsx:164-303 | without a face the smoothing refs are untouched and the emotion is "Searching..."; with one, both smoothed values lie between sample and previous value, the branch is the one the smoothed pose selects, and the emotion is plain "Neutral" iff blendshapes are missing |
| Tracker.StatusAfter | src/components/FocusTracker.tsx:216-303 | after a frame the status is never Loading, and it is Focused iff the frame took the centred branch |
| Tracker.PhoneAfterPose | src/components/FocusTracker.tsx:216-253 | a face sets the phone flag iff it looks down; no face leaves the flag unchanged |
| Tracker.Telemetry | src/components/FocusTracker.tsx:219-301 | "away" is sent iff there is no face |
| Tracker.CoachSpeaks | src/components/FocusTracker.tsx:323-356 | coaching speaks only more than 50 s after the last coaching message, always with a valid message, and always when that much time has passed and a category applies |
| Tracker.CountTrue | src/components/FocusTracker.tsx:422 | the number of focused frames is at most the history length, 0 iff none is focused, and the full length iff all are |
| Tracker.AnalysisScore | src/components/FocusTracker.tsx:422-424 | the focus score lies in [0, 1] and is 0 on an empty history |
| Tracker.Share | src/components/FocusTracker.tsx:424 | n / d lies in [0, 1], times d gives n back, and is 1 iff n = d and 0 iff n = 0 |
| Tracker.AnalysisScoreIsShare | src/components/FocusTracker.tsx:422-424 | the score is the focused share of the history; it is 1 iff every frame was focused and 0 iff none was |
| Tracker.DurationMinutes | src/components/FocusTracker.tsx:426 | the whole minutes elapsed since the session started, rounded down |
| Tracker.AnalysisOutputs | src/components/FocusTracker.tsx:420-455 | the request comes first with the focus score and minutes; nothing follows iff the reply carries no advice; spoken advice is the advice's description, only past the 10 s double-talk gate |
| Tracker.DistractingFilter | src/components/FocusTracker.tsx:382-388 | the filter keeps exactly the cell phone and remote detections, and the one named is the first such in detection order |
| Tracker.ObjectOutputs | src/components/FocusTracker.tsx:382-396 | at most one message; a warning is spoken iff a distracting object is seen more than 15 s after the last phone warning, and it names such an object |
| Tracker.OnePhoneWarningPerFrame | src/components/FocusTracker.tsx:228-233 | the pose path and the object path never both warn about a phone on the same frame, because they share one limiter |
| Tracker.LastSaidIsLatest | src/components/FocusTracker.tsx:323-345 | in a rate-limited log the last coaching (or phone) message is the latest of its channel |
| Tracker.RateLimitedSpacing | src/components/FocusTracker.tsx:323-453 | in a rate-limited log, any two coaching messages are more than 50 s apart, any two phone warnings more than 15 s apart, and spoken advice comes more than 10 s after every earlier coaching message |
| Tracker.LogInvariantStep | src/components/FocusTracker.tsx:229-232 | a message that passes the tracker's limiter fields, appended with its limiter moved to its time, keeps the log rate-limited and the fields ahead of it |
| Tracker.InitialInv | src/components/FocusTracker.tsx:64-87 | the mounted tracker satisfies the frame invariant |
| Tracker.PoseStepInv | src/components/FocusTracker.tsx:164-303 | the pose and emotion phase preserves the frame invariant |
| Tracker.PoseLogInv | src/components/FocusTracker.tsx:216-233 | the pose phase's outputs keep the log rate-limited and its phone limiter ahead of the log |
| Tracker.RecordStepInv | src/components/FocusTracker.tsx:305-317 | the history and stabilizer phase preserves the frame invariant |
| Tracker.CoachStepInv | src/components/FocusTracker.tsx:319-357 | the coaching phase preserves the frame invariant |
| Tracker.AnalysisStepInv | src/components/FocusTracker.tsx:358-362 | the periodic analysis preserves the frame invariant |
| Tracker.AnalysisLogInv | src/components/FocusTracker.tsx:440-455 | the analysis outputs keep the log rate-limited, because advice is spoken only more than 10 s after the last coaching message |
| Tracker.DetectStepInv | src/components/FocusTracker.tsx:364-368 | the periodic object detection preserves the frame invariant |
| Tracker.Next | src/components/FocusTracker.tsx:142-371 | a frame before the face model loads changes nothing; afterwards the status is never Loading; the output log only grows and the session start is kept |
| Tracker.NextInv | src/components/FocusTracker.tsx:142-371 | every frame preserves the invariant: buffers within 300 and 20, displayed emotion the buffer's mode, every spoken message within its rate limit |
| Tracker.DisplayedEmotionIsStableMode | src/components/FocusTracker.tsx:305-317 | after a frame with the model loaded, the emotion buffer is non-empty and the displayed emotion is its stable mode |
| Tracker.FocusSession.constructor | src/components/FocusTracker.tsx:64-87 | the mounted tracker: centred pose, empty buffers, limiters at 0, cadences starting now, status Loading, emotion "Neutral" |
| Tracker.FocusSession.ModelsLoaded | src/components/FocusTracker.tsx:115 | once the models are loaded the status is Distracted and nothing else changes |
| Tracker.FocusSession.Emit | src/components/FocusTracker.tsx:404-418 | an output is appended to the log |
| Tracker.FocusSession.ApplyBranch | src/components/FocusTracker.tsx:216-253 | each branch sets status, phone flag and telemetry, and the phone warning is spoken and the limiter moved iff looking down more than 15 s after the last warning |
| Tracker.FocusSession.ObserveFace | src/components/FocusTracker.tsx:161-303 | the fields change as the pose phase prescribes, and the frame's focus flag and emotion are the perceived ones |
| Tracker.FocusSession.Record | src/components/FocusTracker.tsx:305-317 | both buffers take the frame with one shift on overflow, and the displayed emotion becomes the buffer's mode |
| Tracker.FocusSession.Coach | src/components/FocusTracker.tsx:319-357 | the coaching slot appends exactly the coaching phase's output and moves the coaching limiter iff it spoke |
| Tracker.FocusSession.RunAnalysis | src/components/FocusTracker.tsx:420-459 | the analysis appends the request, then the advice toast and, past the double-talk gate, the spoken advice; a failed request appends only the request |
| Tracker.FocusSession.DetectObjects | src/components/FocusTracker.tsx:373-402 | a distracting object sets the phone flag, and is named in a warning that moves the shared limiter iff it comes more than 15 s after the last phone warning |
| Tracker.FocusSession.Sense | src/components/FocusTracker.tsx:161-317 | the pose phase then the history phase |
| Tracker.FocusSession.Act | src/components/FocusTracker.tsx:319-368 | coaching, then analysis at most every 10 s, then detection at most every 2 s |
| Tracker.FocusSession.Step | src/components/FocusTracker.tsx:142-371 | one frame is the transition `Next`, and the frame invariant is kept |
| AnalysisService.AnalyzeSession | backend/analysis_service.py:4-38 | no advice iff no rule applies; late night overrides everything; overtime (preferred duration, 25 by default, plus 5 minutes) overrides low focus; low-focus advice iff focus is below 0.4 and neither later rule applies; only low-focus advice is a warning |
| AnalysisService.LastApplying | backend/analysis_service.py:13-38 | the advice of the last applying rule, or none iff no rule applies |
| AnalysisService.AnalyzeSessionIsLastApplyingRule | backend/analysis_service.py:4-38 | the three reassigning ifs equal the priority chain where the last applying rule wins |
| Analytics.HourOf | backend/analytics_service.py:146 | the hour of a timestamp lies in 0..23 |
| Analytics.WeekdayOf | backend/analytics_service.py:227 | the weekday lies in 0..6 |
| Analytics.WeekdayOfNextDay | backend/analytics_service.py:227 | a day later is the next date and the next weekday, wrapping Sunday to Monday |
| Analytics.MeanBounds | backend/analytics_service.py:28 | the mean of bounded scores stays within the same bounds |
| Analytics.SumBounds | backend/analytics_service.py:26-28 | a sum of bounded values lies between n times each bound |
| Analytics.StartedBetween | backend/analytics_service.py:31-40 | keeps exactly the sessions started in the window, each as often as in the input |
| Analytics.LastDays | backend/analytics_service.py:72-76 | the n dates ending today, and no others |
| Analytics.CalculateStreak | backend/analytics_service.py:56-78 | a streak of k means today back to today-(k-1) are all study dates and today-k is not; it never exceeds the number of distinct study dates |
| Analytics.Card | backend/analytics_service.py:65-76 | a subset of the study dates is no larger than the set |
| Analytics.Improvement | backend/analytics_service.py:44 | 0 when last week's average is not positive; otherwise positive iff focus improved, 0 iff unchanged, and the relative change in percent |
| Analytics.WeeksDisjoint | backend/analytics_service.py:31-40 | no session counts in both this week and last week |
| Analytics.CalculateUserStats | backend/analytics_service.py:11-54 | no sessions give the all-zero defaults; otherwise totals, hours, mean focus, this week's figures, the improvement over last week's mean and the streak as defined |
| Analytics.SelectFirstMax | backend/analytics_service.py:159 | returns a key of maximal value, and the first such key in key order |
| Analytics.HourScoreMapDomain | backend/analytics_service.py:145-149 | after n sessions the dictionary has exactly the hours seen so far |
| Analytics.HourScoreMapScores | backend/analytics_service.py:145-149 | each hour's list holds the focus scores of its sessions, in session order |
| Analytics.ScoresAtStep | backend/analytics_service.py:149 | one more session appends its score to its own hour's list only |
| Analytics.AddHourScore | backend/analytics_service.py:147-149 | a new hour starts an empty list before the score is appended, and joins the keys |
| Analytics.CollectHourScores | backend/analytics_service.py:143-149 | the loop builds every hour's score list, keyed in first-occurrence order |
| Analytics.FindBestStudyHour | backend/analytics_service.py:141-161 | none iff fewer than 2 distinct hours; otherwise an hour of maximal average focus, the first such in first-occurrence order |
| Analytics.TwoHourKeys | backend/analytics_service.py:158 | there are at least 2 distinct hours iff two sessions start at different hours |
| Analytics.Bucket | backend/analytics_service.py:174-185 | a duration falls in one of 15, 25, 35, 45, 60: 15 iff under 20, 60 iff at least 50, otherwise the bucket within 5 minutes of it |
| Analytics.Candidates | backend/analytics_service.py:188-192 | exactly the buckets with at least 2 sessions |
| Analytics.CollectBucketScores | backend/analytics_service.py:166-185 | every bucket holds the scores of the sessions that fall in it |
| Analytics.FindOptimalSessionLength | backend/analytics_service.py:163-197 | none iff no bucket has 2 sessions; otherwise a bucket with at least 2 sessions and maximal mean, the first such in bucket order |
| Analytics.FormatHour | backend/analytics_service.py:199-208 | "midnight" iff hour 0, "noon" iff hour 12, otherwise text ending " AM" below 12 and " PM" above |
| Analytics.FormatHourRoundTrip | backend/analytics_service.py:199-208 | every hour 0..23 is formatted to text that reads back as that hour, so no two hours share a label |
| Analytics.GetWeeklyData | backend/analytics_service.py:223-239 | exactly 7 entries, Mon..Sun in order, each with that weekday's session count and hours |
| Analytics.CountsUpToStep | backend/analytics_service.py:226-229 | dropping the last session removes one from its own weekday's count only |
| Analytics.NoSessionsNoCounts | backend/analytics_service.py:224 | every weekday starts at 0 sessions |
| Analytics.WeeklyCountsCoverSessions | backend/analytics_service.py:226-239 | the seven daily session counts sum to the number of sessions |
| TimerPage.FullDuration | src/pages/Timer.tsx:8-9 | a period has a positive length |
| TimerPage.AdvanceKeepsValid | src/pages/Timer.tsx:18-40 | a second of the timer keeps the countdown within its period's range |
| TimerPage.PausedTimerHolds | src/pages/Timer.tsx:19-33 | a paused timer with time left does not change |
| TimerPage.RunsDown | src/pages/Timer.tsx:19-22 | a running timer loses exactly one second per tick until zero |
| TimerPage.Advance | src/pages/Timer.tsx:18-33 | a second either switches to the other period, full and stopped, or keeps the period and running flag and takes off at most one second, only while running |
| TimerPage.RunsIntoOtherPeriod | src/pages/Timer.tsx:18-33 | a running timer keeps its period until its last second, and on the second its time runs out the other period stands full and stopped |
| TimerPage.Progress | src/pages/Timer.tsx:55-57 | progress lies in [0, 100] for a valid countdown, is 0 iff the period is untouched, and 100 iff it ran out |
| TimerPage.ProgressPerSecond | src/pages/Timer.tsx:55-57 | each tick before the last adds 100 / period length to the progress; the last one lands on the other period at progress 0 |
| TimerPage.FormatTime | src/pages/Timer.tsx:49-53 | at least two minute digits, a colon, then two seconds digits, all of them decimal digits |
| TimerPage.PaddedReadsBack | src/pages/Timer.tsx:52 | a zero-padded number is all digits and reads back as itself |
| TimerPage.FaceReadsBack | src/pages/Timer.tsx:52 | minutes and seconds below 60 printed as MM:SS read back as the total seconds |
| TimerPage.FormatTimeRoundTrip | src/pages/Timer.tsx:49-53 | the formatted time reads back as the seconds it came from |
| TimerPage.Timer.constructor | src/pages/Timer.tsx:12-14 | the page opens on a stopped 25-minute focus period |
| TimerPage.Timer.Step | src/pages/Timer.tsx:18-40 | one second is the interval's tick then the effect it triggers, so the switch at zero takes no extra second; the new state is `Advance` of the old and the countdown stays in range |
| TimerPage.Timer.Toggle | src/pages/Timer.tsx:42 | play/pause flips running and nothing else |
| TimerPage.Timer.Reset | src/pages/Timer.tsx:44-47 | reset stops the timer with the current period's full time, mode unchanged |
| TimerPage.Timer.SelectMode | src/pages/Timer.tsx:67-82 | a mode button sets that period, in full and stopped, whatever the prior state |
| Chat.TableSearch | backend/chat_service.py:98-100 | an entry of the table matches iff it exists and its pattern is found in the text |
| Chat.FirstFound | backend/chat_service.py:98-100 | the first matching table entry from a position on, or none iff no later entry matches |
| Chat.LocalAnswer | backend/chat_service.py:95-103 | a table entry answers only if it exists |
| Chat.LocalAnswerIsFirstMatch | backend/chat_service.py:95-103 | the default text iff no pattern matches the lower-cased message; otherwise the first matching entry in table order |
| Chat.LocalAnswerIgnoresCase | backend/chat_service.py:95 | messages that agree after lower-casing get the same answer |
| Chat.GetResponse | backend/chat_service.py:71-103 | the external reply is returned iff a key is used and the selected provider's reply is acceptable; otherwise the local lookup answers |
| Chat.NoKeyMeansLocal | backend/chat_service.py:73 | without a key longer than 10 characters no external call matters and the local lookup answers |
| Chat.FailedCallFallsBack | backend/chat_service.py:84-92 | an exception or an error-prefixed or empty reply falls back to the local lookup |
| Chat.OnlySelectedProviderMatters | backend/chat_service.py:77-81 | only the provider the key selects (Gemini iff it starts with "AIzaSy") can affect the answer |
| Chat.LastSegment | backend/chat_service.py:220 | the suffix after the last "/", itself free of "/" |
| Chat.LastSegmentOfPath | backend/chat_service.py:220 | "models/x" yields x |
| Chat.FirstQualifying | backend/chat_service.py:218-220 | the first model of a preference family that supports generateContent, or none iff no model qualifies |
| Chat.FirstGenerating | backend/chat_service.py:223-225 | the first model supporting generateContent, or none iff there is none |
| Chat.ChosenPreference | backend/chat_service.py:217-220 | the earliest preference that any model qualifies for, or none iff none does |
| Chat.HasQualifyingIsFound | backend/chat_service.py:218-220 | a preference has a qualifying model iff the inner loop finds one |
| Chat.SearchPreferences | backend/chat_service.py:216-220 | the preference loop (no contract of its own; `SearchPicksChosenPreference` states what it returns) |
| Chat.SearchPicksChosenPreference | backend/chat_service.py:217-220 | the nested loops return the first qualifying model of the earliest satisfiable preference |
| Chat.ChosenPreferenceIgnoresOrder | backend/chat_service.py:214-220 | which preference is chosen does not depend on the order of the model list |
| Chat.DiscoveryFindsGenerator | backend/chat_service.py:202-227 | discovery succeeds iff some model supports generateContent, and returns such a model's name |
| Chat.DiscoveryFallsBackToFirstGenerator | backend/chat_service.py:222-227 | with no preferred model, the first generator's name, or failure iff there is none |
| Chat.DiscoverGeminiModel | backend/chat_service.py:202-227 | any name discovery returns is the last segment of a listed model that supports generateContent |
| Chat.GeminiModelName | backend/chat_service.py:153-158 | failed discovery falls back to "gemini-1.5-flash"; otherwise the name of a model supporting generateContent |
| AppsPage.ToggleBlock | src/pages/Apps.tsx:45-51 | length and order kept; blocked flips exactly on apps with that id; every other field unchanged |
| AppsPage.ToggleTwiceRestores | src/pages/Apps.tsx:45-51 | toggling the same id twice restores the list |
| AppsPage.ToggleLeavesOthers | src/pages/Apps.tsx:47-49 | apps with another id are untouched |
| AppsPage.BlockedCount | src/pages/Apps.tsx:120 | the "Apps Blocked" figure is at most the list length, 0 iff nothing is blocked, and the length iff everything is |
| AppsPage.ToggleCount | src/pages/Apps.tsx:45-51 | toggling changes the blocked count by the unblocked apps with that id minus the blocked ones |
| AppsPage.ToggleOneApp | src/pages/Apps.tsx:45-51 | toggling a unique id moves the blocked count by exactly one, up or down |
| AppsPage.InitialState | src/pages/Apps.tsx:33-39 | the initial list shows 2 blocked apps, and only Discord has reached its limit |
| AppsPage.LimitReached | src/pages/Apps.tsx:178 | an app has reached its limit when its time spent is at least the limit (no contract; `InitialState` uses it) |
| AppsPage.CategoryColor | src/pages/Apps.tsx:53-62 | the colour classes of the three categories (no contract; `CategoryColorsDiffer` states they differ) |
| AppsPage.CategoryColorsDiffer | src/pages/Apps.tsx:53-62 | the three categories have three different colour classes |

## Left out

- Model inference: face landmarks, blendshapes and object detections are inputs, not computed. Canvas drawing, webcam access, `requestAnimationFrame` and all page rendering are left out.
- Output sinks: speech, toasts, WebSocket messages and the `/analyze` request are entries of an output log. Their JSON payloads and voices are not modelled, and the `speechSynthesis` availability test is taken as true.
- Wording: coaching messages are drawn from a table indexed by category and position, and server advice is kept symbolic. Only the tracker's own warnings are literal text.
- Time: the frame step reads one `now`, where the code calls the clock several times during a frame.
- Concurrency: frames run one after another, so the async overlap of `runAnalysis` and `detectObjects` is not modelled. `lastHappyTime` is never read by the code and is left out.
- Tracker.PerceptionFacts: faces whose two eye corners share an x coordinate are excluded, because the code divides by their distance (infinite or NaN in JavaScript).
- Tracker.DistractingFilter: a detection is represented by the name of its top category, so a missing category name is not modelled.
- Floating point: scores, averages and smoothing are exact reals, so rounding of IEEE doubles and Python's `round(..., 1)` in the statistics output are not modelled.
- Analytics: database queries are replaced by the list of completed sessions. Dates and weekdays are computed from UTC seconds; time zones are not modelled.
- Analytics: `generate_insights` and `update_study_pattern` only assemble text and write to the database, so they are left out.
- Chat: regular-expression search is an uninterpreted matcher.
- Lower-casing covers ASCII letters only, both in the chat lookup and in the tracker's label test for phones and remotes (`Tracker.IsDistracting`).
- Chat: the OpenAI and Gemini HTTP calls are inputs (a reply text or an exception). Only the listing's model names and method lists are modelled from the discovery response.
- TimerPage.FormatTime: negative seconds are not modelled; the countdown never goes below zero.
- TimerPage: the sound toggle has no logic. A `Step` is one second: the interval's tick, then the effect run it triggers; the switch at zero takes no time of its own.
- AppsPage: the focus-mode switch, the progress bar value, the icons and the screen-time total are display only.
- Analysis requests from the tracker use the server's rules only through its reply; the tracker does not call `AnalyzeSession` itself.

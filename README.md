# SignLingo realtime link and feature pipeline, modelled in Dafny

This project models the client side of an American Sign Language tutor. The browser
captures the webcam, detects hand landmarks, streams them over one WebSocket to a
prediction service, and shows the predictions it gets back. Five parts are modelled:

- **The realtime channel** (`channel.dfy`, module `Channel`). It models the
  `WebSocketProvider`. A class `RealtimeChannel` holds the socket state, the `connected`
  flag, the error slot, the reconnect-attempt counter, the pending reconnect timer, the
  pending connection timeout and the registered message handler. It also keeps a log of
  transmitted payloads and a ghost log of scheduled reconnect delays. Each browser event
  or timer expiry is a method. The reconnect delay `min(1000 * 1.5^n, 30000)` is computed
  exactly over reals.
- **The webcam component** (`video.dfy`, module `VideoStream`). The `predictWebcam` loop is
  a `Step` function per invocation. `Run` is the whole loop and `PredictLoop` is the loop
  as a method proved equal to `Run`. The class `VideoStreamState` holds the prediction
  handler, `enableCam` and the auto-start effect. `StatusLine` and `ShownError` give the
  status line and the error banner.
- **The landmark feature vector** (`landmarks.dfy`, module `Landmarks`). Both training
  scripts shift each keypoint by its hand's smallest x and smallest y. `NormaliseHand` is
  that shared per-hand loop body.
- **The training-set builder** (`dataset.dfy`, module `Dataset`) and **the live classifier
  pass** (`inference.dfy`, module `Inference`). The directory tree and the detector output
  are given as data.
- **The static catalogues** (`catalogue.dfy`) and **the leaderboard medal**
  (`leaderboard.dfy`).

`wrappers.dfy` holds `Option` and JavaScript string truthiness. `wire.dfy` holds the JSON
shapes exchanged with the prediction service.

## Model

| member | source | states |
|---|---|---|
| `Channel.ReconnectDelay` | frontend/contexts/WebSocketContext.tsx:42-47 | every reconnect delay lies between 1000 ms and 30000 ms |
| `Channel.DelayMonotone` | frontend/contexts/WebSocketContext.tsx:42-47 | more failed attempts never give a shorter delay |
| `Channel.DelaySchedule` | frontend/contexts/WebSocketContext.tsx:30-47 | the delay is exactly `1000 * 1.5^n` (below the cap) for n up to 8, exactly 30000 from n = 9 on, and 1000 for n = 0 |
| `Channel.BackoffLogNonDecreasing` | frontend/contexts/WebSocketContext.tsx:86-128 | the delays scheduled since the last successful open (the last `attempts` of the log, as `Valid` keeps them) start at 1000 ms and never decrease |
| `Channel.RealtimeChannel.constructor` | frontend/contexts/WebSocketContext.tsx:35-40 | starts with no socket, not connected, no error, zero attempts, no timer and no handler |
| `Channel.RealtimeChannel.Connect` | frontend/contexts/WebSocketContext.tsx:63-84 | does nothing on an open socket; otherwise it cancels the pending reconnect timer, creates a connecting socket and arms its timeout; attempts, error and handler are unchanged; at most one reconnect timer is ever pending (`Valid`) |
| `Channel.RealtimeChannel.OnOpen` | frontend/contexts/WebSocketContext.tsx:86-92 | an opening socket becomes open and connected, the error is cleared, the attempt count resets to 0 and the timeout is cancelled |
| `Channel.RealtimeChannel.OnError` | frontend/contexts/WebSocketContext.tsx:105-109 | sets the connect-failure error and marks disconnected; socket, attempts and timers are unchanged |
| `Channel.RealtimeChannel.OnClose` | frontend/contexts/WebSocketContext.tsx:111-130 | drops the socket and marks disconnected; codes 1000 and 1001 schedule nothing and keep attempts; any other code schedules exactly one reconnect with the delay for the attempt count before the increment, then increments it; the last `attempts` logged delays stay the backoff of the current run of failures (`Valid`) |
| `Channel.RealtimeChannel.TimerFires` | frontend/contexts/WebSocketContext.tsx:123-128 | an expiring reconnect timer is no longer pending and starts a new connecting socket; attempts are unchanged |
| `Channel.RealtimeChannel.ConnectTimeoutFires` | frontend/contexts/WebSocketContext.tsx:79-84 | a socket that has not opened is closed and the timeout error is recorded; the rest is unchanged |
| `Channel.RealtimeChannel.Unmount` | frontend/contexts/WebSocketContext.tsx:138-147 | cancels the pending reconnect timer and closes any socket |
| `Channel.RealtimeChannel.Send` | frontend/contexts/WebSocketContext.tsx:49-57 | a payload is transmitted if and only if the socket is open; otherwise it is dropped and nothing changes |
| `Channel.RealtimeChannel.SetMessageHandler` | frontend/contexts/WebSocketContext.tsx:59-61 | the new handler replaces the previous one |
| `Channel.RealtimeChannel.OnMessage` | frontend/contexts/WebSocketContext.tsx:94-103 | a parsed message goes to the most recently set handler, and only when one is set; an unparsable one reaches no handler; no state changes |
| `Channel.FirstReconnectAfterOpen` | frontend/contexts/WebSocketContext.tsx:86-128 | after a successful open, the first abnormal close schedules a reconnect in exactly 1000 ms and sets attempts to 1 |
| `Channel.UnmountThenClose` | frontend/contexts/WebSocketContext.tsx:138-147 | after unmount, the code-1000 close (the code an open socket reports) leaves no reconnect pending and attempts unchanged |
| `VideoStream.Step` | frontend/components/VideoStream.tsx:121-175 | one invocation sends at most one frame; it sends if and only if the refs are present, the rate gate `now - last >= 1000/60` passes, there is a 2-D context, the video has a size and at least one hand is detected; `lastProcessedTime` moves only on a send, to that check's timestamp; the loop ends if and only if a ref is missing, or (past the gate) the context is missing, or the video has a size and the camera is stopped; a zero-size video reschedules even with the camera stopped |
| `VideoStream.PredictLoop` | frontend/components/VideoStream.tsx:121-181 | the loop run over successive invocations returns exactly what `Run` specifies: the frames sent, the final `lastProcessedTime`, and whether it ended itself |
| `VideoStream.RunSpacing` | frontend/components/VideoStream.tsx:124-155 | the first frame sent is at least `FRAME_INTERVAL` after the starting timestamp, and consecutive frames sent are at least `FRAME_INTERVAL` apart, whatever the clock does |
| `VideoStream.RunLast` | frontend/components/VideoStream.tsx:152-155 | the final `lastProcessedTime` is the timestamp of the last frame sent, or the starting value if none was sent |
| `VideoStream.RunSendsOnlyHands` | frontend/components/VideoStream.tsx:152-155 | every frame sent carries at least one hand and is the detector output of one invocation; no more frames are sent than invocations |
| `VideoStream.RunStopsOnlyWhenTold` | frontend/components/VideoStream.tsx:122-174 | when the loop ends, there is an invocation after whose predecessors it was still running and at which it ended, and that invocation was missing a ref, the landmarker or the context, or saw the camera stopped |
| `VideoStream.VideoStreamState.constructor` | frontend/components/VideoStream.tsx:68-75 | starts with no error, no prediction, camera stopped and landmarker not loaded |
| `VideoStream.VideoStreamState.HandleMessage` | frontend/components/VideoStream.tsx:85-98 | a truthy `error` fills the error slot and leaves the prediction and callbacks alone; otherwise the message replaces the prediction, and `onPrediction(prediction, confidence)` is called once if and only if the callback exists and `prediction` is truthy |
| `VideoStream.VideoStreamState.LandmarkerReady` | frontend/components/VideoStream.tsx:115 | the landmarker is loaded afterwards |
| `VideoStream.VideoStreamState.EnableCam` | frontend/components/VideoStream.tsx:191-211 | refuses with the wait message unless the landmarker is loaded and the channel is connected; a camera failure sets the permission error; the camera is marked running only after a stream is attached to a present video element |
| `VideoStream.VideoStreamState.AutoStart` | frontend/components/VideoStream.tsx:184-189 | `enableCam` runs if and only if connected, landmarker loaded and camera not running; it then never takes the wait-message refusal: a camera failure sets the permission error and leaves the camera flags alone, a stream on a present video element attaches it, starts the camera and clears the error, and with no video element nothing changes; when it does not run nothing changes |
| `VideoStream.StatusLine` | frontend/components/VideoStream.tsx:221-229 | each of the four status strings is shown exactly when it is the first unmet condition in the order connection, hand detection, camera |
| `VideoStream.ShownError` | frontend/components/VideoStream.tsx:216-220 | a banner shows if and only if either error is truthy, and the component's own error wins over the channel's |
| `Landmarks.Min` | training/create_dataset.py:56-57 | the minimum is an element of the list and no larger than any element |
| `Landmarks.Max` | training/inference_classifier.py:87-88 | the maximum is an element of the list and no smaller than any element |
| `Landmarks.NormaliseHand` | training/create_dataset.py:42-57 | the two loops produce `x_`, `y_` and the feature vector `Features(h)` |
| `Landmarks.FeaturesShape` | training/create_dataset.py:47-57 | the vector has twice as many features as keypoints; feature 2i is `x_i - min(x)` and feature 2i+1 is `y_i - min(y)` |
| `Landmarks.FeaturesNonNegative` | training/create_dataset.py:47-57 | every feature is non-negative |
| `Landmarks.FeaturesTouchAxes` | training/create_dataset.py:47-57 | some x-feature and some y-feature are exactly zero |
| `Dataset.TrainingSet.constructor` | training/create_dataset.py:17-19 | the three lists start empty |
| `Dataset.TrainingSet.AddHand` | training/create_dataset.py:42-62 | a hand with 21 keypoints appends its vector, letter and user to the three lists together; any other hand appends nothing; the lists keep equal length (`Valid`) |
| `Dataset.TrainingSet.AddImage` | training/create_dataset.py:39-62 | an image appends the samples of its detected hands in order; no detection appends nothing |
| `Dataset.TrainingSet.AddLetter` | training/create_dataset.py:26-62 | a letter directory appends the samples of its images labelled with its name; a non-directory appends nothing |
| `Dataset.TrainingSet.AddUser` | training/create_dataset.py:21-62 | a user directory appends the samples of its letter directories; a non-directory appends nothing |
| `Dataset.CreateDataset` | training/create_dataset.py:17-62 | `data`, `labels` and `users` have equal length and are the columns of `DatasetSamples(tree)` |
| `Dataset.HandSampleWhenComplete` | training/create_dataset.py:46-62 | the 42-feature guard never rejects a 21-keypoint hand |
| `Dataset.HandSamplesFacts` | training/create_dataset.py:41-62 | each hand gives at most one sample, with 42 non-negative features and the given letter and user |
| `Dataset.ImageSamplesFacts` | training/create_dataset.py:31-62 | every sample from a letter directory's images is well formed and carries that letter and user |
| `Dataset.LetterSamplesFacts` | training/create_dataset.py:26-62 | every sample from a user directory carries that user and the name of one of its letter directories |
| `Dataset.DatasetSamplesFacts` | training/create_dataset.py:21-62 | every sample has 42 non-negative features, its label is a letter directory's name and its user is the name of the user directory holding it |
| `Dataset.HandSamplesCount` | training/create_dataset.py:40-62 | an image gives exactly one sample per hand with 21 keypoints |
| `Inference.TruncTowardZero` | training/inference_classifier.py:85-88 | Python's `int()` moves a value toward zero by less than one |
| `Inference.CoordinatesBetween` | training/inference_classifier.py:85-88 | every keypoint lies between the smallest and largest coordinate of its hand on both axes, the bounds the box is built from |
| `Inference.BoxEncloses` | training/inference_classifier.py:85-88 | the box has x1 <= x2 and y1 <= y2 and encloses every keypoint of its hand, measured the same way (scaled, truncated, shifted by -10) |
| `Inference.ProcessFrame` | training/inference_classifier.py:53-88 | the per-frame pass yields exactly `FrameQueries(hands)`: per hand, a fresh vector and, at 42 features, one classifier query with its box |
| `Inference.FrameQueriesFacts` | training/inference_classifier.py:53-88 | no hand gives no query; one query per 21-keypoint hand, each with 42 non-negative features equal to the training vector of that hand alone, and a well-formed box |
| `Catalogue.FindLesson` | frontend/utils/lessonData.ts:8-51 | the lesson page's `lessonData.find(l => l.id === id)` returns a lesson of this catalogue carrying the requested id, or none when no lesson has it |
| `Catalogue.QuizAt` | frontend/utils/quizData.ts:7-43 | the quiz page's bounds-checked `quizData[id - 1]` finds a quiz of this catalogue exactly for ids 1 to 7 |
| `Catalogue.LessonIdsAreIndices` | frontend/utils/lessonData.ts:8-51 | there are seven lessons and entry i has id i + 1 |
| `Catalogue.LessonLookup` | frontend/utils/lessonData.ts:8-51 | the lookup by id succeeds exactly for ids 1 to 7 and then returns `lessonData[id - 1]` |
| `Catalogue.QuizIdsAreIndices` | frontend/utils/quizData.ts:7-43 | there are seven quizzes and entry i has id i + 1 |
| `Catalogue.QuizLookup` | frontend/utils/quizData.ts:7-43 | the index lookup `quizData[id - 1]` returns the quiz that carries id `id` |
| `Catalogue.LessonTitles` | frontend/utils/lessonData.ts:11-47 | lesson n is titled "Lesson n" |
| `Catalogue.QuizTitles` | frontend/utils/quizData.ts:10-40 | quiz n is titled "Quiz n" |
| `Catalogue.LessonLetterShape` | frontend/utils/lessonData.ts:12-48 | every lesson has 2 to 4 letters and each is one upper-case letter |
| `Catalogue.QuizLetterShape` | frontend/utils/quizData.ts:11-41 | every quiz has 2 to 4 letters and each is one upper-case letter |
| `Catalogue.QuizMatchesLesson` | frontend/utils/quizData.ts:11-41 | quiz n tests exactly the letters lesson n teaches |
| `Catalogue.LessonsCoverAlphabet` | frontend/utils/lessonData.ts:12-48 | the lessons' letters in order are exactly A to Z |
| `Catalogue.QuizzesCoverAlphabet` | frontend/utils/quizData.ts:11-41 | the quizzes' letters in order are exactly A to Z |
| `Catalogue.AlphabetDistinct` | frontend/utils/lessonData.ts:12-48 | no letter of A to Z appears twice, so each letter is taught exactly once |
| `Leaderboard.GetMedal` | frontend/components/ui/leaderboard-card.tsx:11-16 | ranks 1, 2 and 3 give gold, silver and bronze; the result is non-null if and only if 1 <= rank <= 3 |
| `Leaderboard.MedalsDistinct` | frontend/components/ui/leaderboard-card.tsx:11-16 | distinct podium ranks get distinct medals |

## Left out

- Browser and device APIs are inputs, not models. This covers hand-landmarker loading and
  `detectForVideo`, `getUserMedia`, `requestAnimationFrame`, `performance.now()`, video and
  canvas resizing, and all drawing. Each loop invocation is a `Tick` that holds what it
  observes.
- Timers and socket events arrive in whatever order the caller chooses. There is no
  concurrency. The 10 s connection timeout is the event `ConnectTimeoutFires`.
- Events on a socket that no longer exists (`NoSocket`) are no-ops, because no live socket
  can fire them.
- `Channel.RealtimeChannel.Connect` on a socket that is still connecting or already
  closing replaces it in the model, because the model keeps one socket slot. The source
  creates a second socket and keeps the old one's handlers and timeout alive. This happens
  when the same provider mounts again while the socket of its previous mount is still
  closing, as in a mount, cleanup, mount cycle. The old socket's `onclose` then sets `wsRef`
  to null, so the new socket is orphaned and `sendMessage` drops every payload, while the
  new socket's `onopen` still sets `isConnected`. The model does not capture this: the old
  close drops the new socket, and the new socket's `OnOpen` does nothing.
- `Channel.UnmountThenClose` assumes the close code 1000 that the cleanup requests. A
  socket that is closed while still connecting delivers code 1006 instead. Then the source
  and the model both schedule a reconnect on the unmounted provider.
- After unmount, React ignores state updates, but the model keeps updating `connected` and
  `error`. The close code that arrives after unmount is an input. The model, like the
  source, schedules a reconnect for any code other than 1000 or 1001.
- Exceptions thrown by `JSON.stringify` or `WebSocket.send` are caught and logged in the
  source. In the model, a send on an open socket always succeeds. Console logging is not
  modelled.
- The `ws` value the context exposes to consumers is not modelled.
- An inbound message is reduced to the `error`, `prediction` and `confidence` fields.
  `None` stands for a payload that failed to parse.
- `predictWebcam` reads `webcamRunning` as captured when it was created. The model takes
  that value as a per-invocation input.
- `VideoStream.VideoStreamState.EnableCam` does not model the `await` between the guard
  and the camera result, during which the state could change.
- The component starts `predictWebcam` from two places: the video's `onLoadedData` and the
  effect that runs when `webcamRunning` changes. Each invocation reschedules its own
  closure, so two frame loops normally run at once and share `lastProcessedTime`. The
  ticks of `VideoStream.Run` then stand for the invocations of both loops in time order,
  up to the first invocation that does not reschedule. The loop that survives after that
  point is not modelled. `VideoStream.RunSpacing` still holds across both loops, because
  the rate gate reads and writes the shared `lastProcessedTime` synchronously. The start of
  each loop is not modelled either: a run may start at any invocation.
- In the training scripts, image decoding is not modelled. A failed `cv2.imread` would make
  the script raise. Progress printing, the pickle output, model loading, the classifier
  itself, camera capture and `putText` are not modelled either. The infinite frame loop of
  the live classifier is modelled one frame at a time (`ProcessFrame`). Directory listings
  are taken in the order given.
- Floating-point arithmetic is modelled with exact reals. `FRAME_INTERVAL` is exactly 50/3
  in the model, but 16.666666666666668 as a double in the source. A gap between the two
  therefore sends a frame in the model and not in the source. The `performance.now()`
  timestamps, the reconnect delay, the features `x - min(x_)` and the box
  `int(min(x_) * W)` are also exact in the model, with no rounding.
- Keypoint z coordinates are not read by the scripts and are not modelled.
- `Leaderboard.GetMedal`: ranks are integers. A fractional JavaScript rank would also give
  null in the source.
- Lesson descriptions are in the catalogue constant, but no property is stated about them.
- The older `components/VideoStream.tsx`, the backend service, `train_classifier.py`,
  `collect_imgs.py` and the presentational pages and cards are not part of this model.
- The hold-or-streak gesture confirmation and the lesson and quiz sequencing pages are not
  part of this model.

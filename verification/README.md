# ad-agent: action capture and training-corpus bookkeeping, in Dafny

This project models the deterministic core of the ad-agent browser agent. The
agent records a user's interactions with web pages as timed action sequences,
lets an operator rate each finished sequence, and keeps the rated sequences as
a training corpus for an ad-rating model. The model covers four pieces:

- **Actions** (`actions.dfy`): the recorded event. It holds a timestamp (an
  integer clock reading in microseconds), a type name, and a parameter map of
  integer or string values.
- **Features** (`features.dfy`): `AdRatingModel.extract_features` and the
  seven-name schema `feature_names`. The extraction is modelled the way the
  code computes it: a loop that updates a by-name dictionary, whose values are
  then listed in schema order. It is proved equal to independent reference
  definitions of scroll distance, click count and time spent. It fails exactly
  when a scroll amount is not a number, the case where Python's `abs` raises.
- **Session** (`session.dfy`): `TrainingSession`. It holds the parallel lists
  `action_sequences` and `ratings` and the open buffer `current_sequence`,
  with `start_sequence`, `add_action`, `end_sequence` and `train_model`. It
  also has `load_training_data` as a wholesale replacement of the two lists.
- **Agent** (`agent.dfy`, `traces.dfy`): the recording gate of `WebAgent`.
  This is the `is_recording` flag, the audit log `actions_log`, the training
  session, and the agent methods that read or change them. The JSON write of
  the audit log is an effect: each transition returns the log it wrote, or
  `None`. `traces.dfy` runs any sequence of the recording, flushing, browsing,
  closing and training-sequence calls from a fresh agent, with every log
  write succeeding. It proves over every such run:
  - the corpus lists stay parallel;
  - no stored sequence is empty;
  - the audit log is empty whenever recording is off;
  - the audit log and the open training sequence agree on their common tail;
  - committed examples are never dropped or rewritten;
  - once the agent is closed, every recorded event has been handed to exactly
    one flush of the audit log, in recording order.

`Wrappers` (`wrappers.dfy`) supplies `Option` for the code's `None` returns and
`Result` for the exceptions it raises.

Facts about the code that the model keeps:

- `end_sequence` accepts any rating (src/ml_model.py:121-126). The only 0..1
  check is in the command-line loop, src/main.py:30.
- `add_action` appends whether or not a sequence was started
  (src/ml_model.py:117-119). The only filter is the agent's `is_recording` gate.
- `start_sequence` clears the buffer even while a sequence is open
  (src/ml_model.py:113-115).
- `record_action` appends to the audit log only while recording
  (src/agent.py:87-97).
- The four ad-metadata features are never written, so they are always 0
  (src/ml_model.py:41-58).
- `WebAgent.ad_rating_model` (src/agent.py:24) and the session's own `model`
  (src/ml_model.py:111) are distinct instances, so training the session never
  changes what `predict_rating` uses. In the model the prediction reads only
  the audit log, never the session; `Agent.PredictIgnoresTraining` states
  that frame fact.

## Model

| member | source | states |
|---|---|---|
| Features.ScrollMagnitude | src/ml_model.py:47-48 | a scroll's contribution is \|amount\| for a numeric amount and 0 for a missing one; it fails iff the amount is a string, where `abs` raises |
| Features.Step | src/ml_model.py:46-56 | one loop iteration fails iff the action is a scroll with a non-numeric amount; otherwise the dictionary keeps its keys |
| Features.Run | src/ml_model.py:46-56 | the loop over the remaining actions fails iff one of them is a scroll with a non-numeric amount; otherwise the dictionary keeps its keys |
| Features.Extract | src/ml_model.py:41-58 | the feature vector has 7 slots in schema order: the sum of \|amount\| over scroll actions, last minus first timestamp (only for 2+ actions), the number of clicks, then four zeros; it fails iff some scroll action carries a non-numeric amount |
| Features.RunMeaning | src/ml_model.py:46-56 | the loop advances scroll_distance and click_count by the reference sums over the actions it visits, sets time_spent from the whole sequence's end points once any action is visited of a 2+ sequence, and leaves every other feature untouched; it fails iff a visited scroll amount is non-numeric |
| Features.FoldedVector | src/ml_model.py:13-21 | the dictionary built from all-zero initial values, listed by `feature_names` order, is exactly [scroll_distance, time_spent, click_count, 0, 0, 0, 0] |
| Features.ExtractEmpty | src/ml_model.py:43-58 | the empty sequence extracts to the all-zero 7-vector without error |
| Features.ScrollDistanceAppend | src/ml_model.py:47-48 | scroll distance of a concatenation is the sum of the parts' scroll distances |
| Features.ClickCountAppend | src/ml_model.py:49-50 | click count of a concatenation is the sum of the parts' click counts |
| Features.ScrollDistanceSnoc | src/ml_model.py:47-48 | appending one action adds \|amount\| to scroll distance if it is a scroll (0 for a missing amount) and nothing otherwise |
| Features.ClickCountSnoc | src/ml_model.py:49-50 | appending one action adds 1 to the click count iff it is a click |
| Features.OtherKindsIgnored | src/ml_model.py:46-50 | an action of any type other than scroll or click changes neither counter and cannot make extraction fail |
| Features.TimeSpentSnoc | src/ml_model.py:52-56 | after appending an action, time_spent is its timestamp minus the first action's, or 0 if it is the only action |
| Features.TimeSpentOrder | src/ml_model.py:52-56 | a single action gives time_spent 0; two out-of-order actions give a negative time_spent (no abs is taken) |
| Session.StartSequence | src/ml_model.py:113-115 | the buffer becomes empty and both corpus lists are unchanged |
| Session.AddAction | src/ml_model.py:117-119 | the buffer grows by exactly the given action at its end, earlier entries kept, corpus unchanged |
| Session.EndSequence | src/ml_model.py:121-126 | with a non-empty buffer, (buffer, rating) is appended to the two lists; with an empty buffer nothing changes; the buffer is empty afterwards; the rating is not range-checked |
| Session.LoadTrainingData | src/ml_model.py:145-150 | the two corpus lists are replaced wholesale by the loaded ones and the buffer is kept |
| Session.FeatureMatrix | src/ml_model.py:62-65 | one feature row per sequence, in order, each the sequence's extracted features; fails iff some sequence's extraction fails |
| Session.TrainModel | src/ml_model.py:128-132 | None iff the corpus is empty; otherwise the model is handed one extracted row per stored sequence with the ratings as labels, or the extraction error |
| Session.NewSessionValid | src/ml_model.py:107-110 | a fresh session satisfies the corpus invariant and has nothing to train on |
| Session.OperationsPreserveValid | src/ml_model.py:113-126 | start_sequence, add_action and end_sequence keep the two lists the same length and every stored sequence non-empty |
| Session.EndSequenceValid | src/ml_model.py:121-126 | end_sequence keeps the lists parallel and never stores an empty sequence, because an empty buffer is not committed |
| Session.EndSequenceGrowth | src/ml_model.py:121-126 | end_sequence grows the corpus by one iff the buffer was non-empty, keeps the lists parallel, and keeps every earlier example in place |
| Session.LoadValid | src/ml_model.py:145-150 | after a load the corpus invariant holds iff the loaded lists satisfy it; nothing re-checks them |
| Agent.StartRecording | src/agent.py:61-64 | the gate is on; the audit log and the session are unchanged |
| Agent.SaveRecordedActions | src/agent.py:72-85 | the audit log is empty afterwards; it is written out iff it was non-empty, and what is written is the old log; gate and session unchanged |
| Agent.StopRecording | src/agent.py:66-70 | the gate is off and the audit log empty; the log was written iff it was non-empty; the session is unchanged |
| Agent.MakeEvent | src/agent.py:90-94 | the event carries the clock reading and the type, and the given parameters or the empty map when none are given |
| Agent.RecordAction | src/agent.py:87-97 | with the gate off nothing changes; with it on the same event (clock reading, type, params or an empty map) ends both the audit log and the open training sequence, and nothing else changes |
| Agent.NavigateTo | src/agent.py:99-107 | while recording, exactly one 'navigate' event with params {url} is recorded; otherwise nothing changes |
| Agent.Click | src/agent.py:109-118 | while recording, exactly one 'click' event with params {x, y} is recorded; otherwise nothing changes |
| Agent.Scroll | src/agent.py:120-129 | while recording, exactly one 'scroll' event with params {direction, amount} is recorded, with the raw amount for either direction; otherwise nothing changes |
| Agent.Close | src/agent.py:169-179 | a recording agent ends with the gate off and an empty audit log; its old log is what is written, and it is written iff non-empty; a non-recording agent is untouched; the corpus is unaffected |
| Agent.StartTrainingSequence | src/agent.py:181-184 | the gate is on, the open sequence is empty, the corpus and the audit log are unchanged |
| Agent.EndTrainingSequence | src/agent.py:186-189 | the gate is off, the audit log and the open sequence are empty, the log was written iff non-empty, and the corpus grew by exactly (old open sequence, rating) iff that sequence was non-empty |
| Agent.LoadTrainingData | src/agent.py:240-242 | the corpus lists are replaced wholesale; gate, audit log and open sequence are unchanged |
| Agent.PredictRating | src/agent.py:195-199 | returns None iff the audit log is empty; a non-empty log fails with a feature error iff some scroll amount is non-numeric; when the features extract, the rating model's answer is returned, and the call fails iff the model raises |
| Agent.NewAgentValid | src/agent.py:19-25 | a fresh agent satisfies the agent invariant and predicts None whatever its rating model |
| Agent.RecordActionValid | src/agent.py:87-97 | recording keeps the invariant: appending the same event to both lists keeps the shorter a suffix of the longer |
| Agent.GateOperationsValid | src/agent.py:61-184 | start/stop recording, a flush of the audit log, close and start of a training sequence keep the agent invariant |
| Agent.EndTrainingSequenceValid | src/agent.py:186-189 | ending a training sequence keeps the agent invariant: audit log and open sequence both empty, corpus lists parallel with no empty sequence |
| Agent.WrappersFeedFeatures | src/agent.py:99-129 | while recording, scroll(d, a) adds \|a\| to the open sequence's scroll distance and no click; click adds one click and no distance; navigate adds neither |
| Agent.PredictIgnoresTraining | src/agent.py:195-199 | the prediction reads only the audit log, never the session: two agents with the same audit log predict the same, whatever their training sessions hold |
| Agent.RatedSequenceScenario | src/agent.py:181-189 | start, scroll(down,300)@t0, click(120,240)@t1, scroll(down,150)@t2, end(r) on a fresh agent stores exactly those three events as the one example, rated r, writes the same three events to the audit file, and their features are [450, t2-t0, 1, 0, 0, 0, 0] |
| Agent.ScenarioFeatures | src/ml_model.py:41-58 | a scroll by 300, a click at (120, 240) and a scroll by 150 extract to [450, last-first timestamp, 1, 0, 0, 0, 0] |
| Traces.ApplyPreservesValid | src/agent.py:61-189 | every single agent call keeps the agent invariant and only appends to the corpus |
| Traces.RunPreservesValid | src/agent.py:61-189 | every run of agent calls from a valid agent ends valid, with the starting corpus as a prefix of the final one |
| Traces.FreshAgentRuns | src/ml_model.py:106-126 | after any calls on a fresh agent, the corpus lists have equal length, every stored sequence is non-empty, and the audit log is empty whenever recording is off |
| Traces.ApplyAudit | src/agent.py:66-97 | one call: the actions it flushes, followed by the log it leaves, equal the log it found followed by the event it records (if the gate is on) |
| Traces.RunAudit | src/agent.py:66-97 | over any run, every action handed to a flush, followed by the final log, equals the starting log followed by every recorded event in order: no event is dropped or flushed twice |
| Traces.ClosedRunAudit | src/agent.py:169-176 | on a fresh agent, a run that ends in close has flushed exactly the recorded events, each once and in recording order |
| Traces.RunClose | src/agent.py:169-176 | closing after any run from a valid agent leaves the audit log empty |

## Left out

- The neural network, `AdRatingModel.train`'s fit, `predict`, the `StandardScaler`, and model `save`/`load` (src/ml_model.py:24-39, 60-104). These are floating-point numerics in external libraries. `Session.TrainModel` stops at the feature matrix and labels handed to the fit.
- Corpus JSON persistence: the `save_training_data` write and the parsing in `load_training_data`. The actions JSON dump and all logging are left out too. These are file I/O. A load is modelled as the wholesale replacement of the two lists once the file is parsed. The corpus save is not modelled at all. The actions dump is modelled only as the log each agent transition reports in its `written` field.
- Session.LoadTrainingData: a document without a `ratings` entry is not modelled. The code assigns the sequences (src/ml_model.py:149) before it reads the ratings (line 150), so such a document replaces the sequences, keeps the old ratings, and then raises.
- Agent.SaveRecordedActions: the write is assumed to succeed. When `makedirs`, `open` or `json.dump` raises (src/agent.py:78-82), the code skips the clearing at line 85 and the audit log keeps its events; the model has no such state.
- Agent.StopRecording: the flush is assumed to succeed. When it raises, the code has already turned the gate off (src/agent.py:68) and leaves a non-empty log, which breaks the invariant that the log is empty while not recording.
- Agent.EndTrainingSequence: the flush is assumed to succeed. When it raises at src/agent.py:188, `end_sequence` (line 189) never runs and a non-empty open sequence is not committed.
- Agent.Close: the driver's `quit` and the flush are assumed to succeed. When `quit` raises (src/agent.py:172-173), `stop_recording` is skipped and the gate stays on; when the flush raises, the log is kept as for `Agent.StopRecording`.
- Traces.RunAudit: the audit trail is stated per flush, not per file. Each file is named by the current second and opened for overwriting (src/agent.py:80-82), so two flushes within one second write the same file and the second replaces the first.
- Selenium and OpenCV: `initialize`, the driver calls inside `navigate_to`/`click`/`scroll`/`close`, `capture_screenshot`, `find_element_by_image`, `get_page_text` and `detect_ad_content`. These are browser and vision calls.
- `WebAgent.train_model` and `WebAgent.save_training_data`. They only delegate to the session, and `Session.TrainModel` is the delegated behaviour.
- src/mcp_server.py and src/main.py. These are the tool-call and command-line front ends. Their rating bounds are a schema and a CLI check, not core behaviour.
- Traces.RunPreservesValid: runs leave out `load_training_data`. A load can break the corpus invariant, because nothing checks the loaded lists; `Session.LoadValid` says exactly when it holds.
- The clock. `datetime.now()` becomes the `now` parameter of each recording call.
- Features.Extract: time_spent is the timestamp difference in microseconds, an integer. The code reports seconds as a float (`total_seconds()`). The extracted row is a flat 7-vector, not numpy's 1x7 array.
- Features.ScrollMagnitude: parameter values are integers or strings. Float amounts, and other values that Python's `abs` would accept (such as booleans), are not modelled.
- Agent.NavigateTo, Agent.Click and Agent.Scroll: only the success path is modelled. When the driver raises first, the code records nothing and re-raises, and that path is not part of the model.
- Agent.PredictRating: the agent's scaler and network are an opaque parameter `net`. The code never fits or loads that instance, so its `transform` would raise; the model represents this only as `net` returning `None`.

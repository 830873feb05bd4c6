# Office hiring and ML-lab people line: a verified model

This project models the in-memory bookkeeping under two scenes of a browser game about bias in
machine-learning hiring:

- **The manual-hiring office** (`Office` in `game/public/components/pixi/office.js`), module
  `ManualOffice`. It has an append-only arena of candidates (`allPeople`). Each candidate is
  addressed by a never-reused identity counter (`uniqueCandidateIndex`). It also keeps the list of
  hired candidates, a `takenDesks` counter checked against the stage's hiring goal, a single
  spotlight slot (`candidateInSpot`, an outer-scope variable in the source and a field here) and a
  stage selector. Stages 0, 1 and 2 have candidate pools of 7, 10 and 15. Accepting or rejecting
  the candidate in the spotlight places exactly one replacement at that candidate's line position
  and clears the spotlight. An accept that brings the desks to the hiring goal signals stage
  completion.
- **The ML-lab people line** (default class of `game/public/components/pixi/ml/people.js`),
  module `MlPeople`. It is a first-in first-out line of people with consecutive ids; person `id`
  stands at `id * 70`. Evaluating the head removes it and appends a newly created person, so the
  line keeps its length while `personCount` grows.

`common.dfy` holds the `Option` type that stands for JavaScript's `null`/`undefined`.

Both classes keep their state in `seq` fields that the methods reassign. The methods state their
whole new state in terms of the old one. The object invariants are:

- office: `Valid` (entry i of the arena has identity i and the sprite of record i,
  `|allPeople| == uniqueCandidateIndex`, hired and spotlight indices point into the arena);
- office: `Session` (the completion signals given since the stage was drawn are exactly those that
  the reference function `Signals` counts for the accepts so far);
- people line: `Valid` (everyone ever created is the run `0 .. personCount-1`, and the line is the
  run `personCount-|peopleLine| .. personCount-1` of it);
- people line: `Full` (the line holds `numOfPeople` people).

The reference functions `Batch`, `Signals` and `Run` carry the lemmas.
`StageZeroScenario` and `LineScenario` are client methods. They show what a caller can conclude
from the contracts alone. For example, in stage 0 with a goal of 3, three accepts signal
completion once, on the third accept, and stage 1 then numbers its pool from 10.

Notable behaviour of the code:

- Replaying stage 0 draws 7 new candidates, but `allPeople` is never cleared and their
  identities continue from the counter instead of restarting at 0 (office.js:104-111).
- Every accept and reject places a replacement and so consumes an identity. After three accepts
  in stage 0 the counter stands at 10, not 7.
- A decision with an empty spotlight is not a no-op. The source dereferences the slot unguarded,
  so the model requires the slot to be filled.
- The RETURN_CANDIDATE handler clears only the candidate's `inSpotlight` flag (office.js:217).
  Assuming `animateThisCandidate` leaves the slot alone (see "## Left out"), the spotlight slot
  keeps pointing at that candidate.

## Model

| member | source | states |
|---|---|---|
| `ManualOffice.BatchAt` | game/public/components/pixi/office.js:261-266 | the k-th candidate a batch appends has identity `first + k`, stands at `0.22 + 0.05*k` and has the sprite of record `first + k` |
| `ManualOffice.BatchSpacing` | game/public/components/pixi/office.js:262-264 | neighbours in a batch have consecutive identities and stand exactly one offset (0.05) apart |
| `ManualOffice.SignalsAtMostOnce` | game/public/components/pixi/office.js:173-192 | with the desk counter raised by one per accept, the goal check fires exactly once if the goal lies in (taken, taken+k] and never otherwise |
| `ManualOffice.Office.constructor` | game/public/components/pixi/office.js:34-54 | counters start at 0, arena and hired list empty, no spotlight, no stage text |
| `ManualOffice.Office.Draw` | game/public/components/pixi/office.js:82-127 | desks reset to 0, spotlight cleared, `currentStage` set, and 7/10/15 candidates appended by stage (0, 1, anything else) with the counter continuing, not reset |
| `ManualOffice.Office.Start` | game/public/components/pixi/office.js:229-248 | selects the text of stage 0, 1 or 2 and keeps the previous text for any other number, then draws the stage |
| `ManualOffice.Office.PlaceCandidate` | game/public/components/pixi/office.js:250-259 | appends exactly one candidate whose identity is the old counter and whose sprite is yellow exactly when its record's colour is `'yellow'`, blue otherwise; counter rises by 1; nothing else changes |
| `ManualOffice.Office.AddPeople` | game/public/components/pixi/office.js:261-266 | appends exactly `count` candidates (the batch of `BatchAt`) after the unchanged old arena; counter rises by `count`; `startIndex` has no effect on identities |
| `ManualOffice.Office.Accept` | game/public/components/pixi/office.js:172-193 | desks +1, spotlight candidate appended to the hired list, one replacement at its `uvX`, spotlight cleared; completion with the current stage is returned exactly when desks equal the hiring goal, and at most once per stage session |
| `ManualOffice.Office.Reject` | game/public/components/pixi/office.js:195-209 | desks and hired list unchanged, one replacement at the rejected candidate's `uvX`, spotlight cleared |
| `ManualOffice.Office.ReturnCandidate` | game/public/components/pixi/office.js:215-218 | only the spotlight candidate's `inSpotlight` flag is cleared; arrays, counters and the slot are untouched |
| `MlPeople.RunAt` | game/public/components/pixi/ml/people.js:38-48 | the k-th person of a run has id `lo + k`, x `(lo + k) * 70` and record `lo + k` |
| `MlPeople.RunIsSuffix` | game/public/components/pixi/ml/people.js:46-47 | a run ending at `personCount` is a suffix of the history of everyone created |
| `MlPeople.RunDropHead` | game/public/components/pixi/ml/people.js:77 | dropping the head of a run leaves the run that starts one id later |
| `MlPeople.PeopleLine.constructor` | game/public/components/pixi/ml/people.js:11-18 | creates `numOfPeople` people with ids 0..numOfPeople-1 in order, person i at x = i*70, and `personCount == numOfPeople` |
| `MlPeople.PeopleLine.CreatePeople` | game/public/components/pixi/ml/people.js:32-36 | appends `numOfPeople` consecutive people and raises `personCount` by as many |
| `MlPeople.PeopleLine.AddNewPerson` | game/public/components/pixi/ml/people.js:38-48 | appends one person with id `personCount`, x `personCount*70` and record `cvData[personCount]`; `personCount` +1; the history grows by that person |
| `MlPeople.PeopleLine.LineIds` | game/public/components/pixi/ml/people.js:38-48 | in a valid line, place k holds person `personCount - length + k`, the same entry as in the history |
| `MlPeople.PeopleLine.HeadIsOldest` | game/public/components/pixi/ml/people.js:62-64 | in a valid non-empty line, `getFirstPerson` returns the oldest person still waiting: id `personCount - length`, at x `id*70`, with record `id` |
| `MlPeople.PeopleLine.EvaluateFirstPerson` | game/public/components/pixi/ml/people.js:70-80 | status is accepted iff `predict(head data) == 1`; the event carries that status and the old head's data; exactly the head is removed and one new person appended, so `getCount()` is unchanged, `Full` is preserved and the ids stay a consecutive run |

## Left out

- `game/public/controllers/common/textures.js` is not part of this model: it loads assets. The two person sprites are the enum `Texture`.
- Scene graph, floors, doors, containers, `addChild`/`removeChild`, door animations and all tweens (`moveTweenHorizontally`, `createTween`, `recalibrateTween`, tween `'end'` callbacks): rendering and asynchronous animation only.
- The UI widgets (`ResumeUI`, `TaskUI`, `TextBoxUI`, `InstructionUI`, `YesNo`, `PeopleTalkManager`), the task timer reset and destroy, and the jQuery removal in `delete`. The STAGE_INCOMPLETE and DISPLAY_THIS_CV handlers only build such widgets and are left out with them.
- Event-emitter subscription (`listenerSetup`, `_removeEventListeners`, the RESIZE listener): each handler is a method here. INSTRUCTION_ACKED and RETRY_INSTRUCTION_ACKED just call `Start`.
- Screen geometry: `uv2px`, the spotlight coordinates, `personStartY`, `originalX/originalY`. `numOfPeople` is a constructor parameter instead of `floor(uv2px(0.85,'w')/70)*2`.
- Line positions are exact reals (`0.22 + 0.05*k`), not IEEE doubles.
- `gameFSM.nextStage()` and the MANUAL_STAGE_COMPLETE emission are represented by `Accept` returning `Some(stage)`.
- `mlModule.predict` is a function parameter of `EvaluateFirstPerson`. The CV collections are constructor parameters, and so is the stage-text table `txt` that office.js:237-243 reads without declaring or importing it.
- `person.js` is not part of this model. The model assumes the following about it:
  - `createPerson` records the x it is given as `uvX` and starts with the spotlight flag off;
  - `MLPerson.getData()` returns the person's record;
  - the candidate click handler writes the candidate's arena index into the spotlight slot and sets that candidate's `inSpotlight` flag; the method `Select` stands for this handler and models no line of office.js;
  - `animateThisCandidate` leaves `candidateInSpot` unchanged.
  - the spotlight slot is empty before the first `draw` (office.js:34-54 never writes it).
- `hiredPeople` holds arena indices instead of object references. It names the same candidates, so the aliasing is kept. A candidate's `inSpotlight` flag is a field of its arena entry.
- `ManualOffice.Office.Accept`: requires a filled spotlight slot. With an empty slot the source raises `takenDesks`, pushes `undefined` and then throws. It also requires a selected stage text, because office.js:188 reads `stageText.hiringGoal` and throws without one.
- `ManualOffice.Office.Reject`: requires a filled spotlight slot, because the source throws reading `uvX` of `undefined`.
- `ManualOffice.Office.ReturnCandidate`: requires a filled spotlight slot, because the source throws on `undefined`.
- `ManualOffice.Office.PlaceCandidate`: requires the counter to be below the number of records, because the source throws reading `.color` past the end. `AddPeople`, `Draw`, `Start`, `Accept` and `Reject` inherit this bound.
- `ManualOffice.Office.Draw`: requires a selected stage text, because `draw` reads `stageText.hiringGoal` (office.js:134) and throws without one.
- `ManualOffice.Office.Start`: requires that a stage text exists afterwards, because `draw` reads `stageText.hiringGoal` and throws if no stage was ever selected.
- `MlPeople.PeopleLine.EvaluateFirstPerson`: requires a non-empty line, because people.js:71 reads `personData` of `undefined` and throws.
- `MlPeople.PeopleLine.AddNewPerson`: requires `personCount < |cvData|`. Past the end the source would create a person with `undefined` data. The constructor and `EvaluateFirstPerson` inherit this bound.

# A verified model of the Blue Wave Optimize UI state machines

The Blue Wave Optimize UI is a React front-end for preference-based model
tuning (DPO and RLHF). Apart from rendering, its components hold five small
sequential state machines. This project models each one in Dafny and proves
what the components promise about them.

- **Training** (`dpo_training.dfy`): the DPOTraining component.
  - A hyperparameter configuration, updated one field at a time.
  - A simulated training job. Start validates the configuration and resets
    every figure. Each firing of the interval advances a step counter and
    recomputes progress and epoch. Every tenth step it logs an entry into a
    buffer that keeps the ten newest. On the last step the job completes and
    clears the interval.
  - Stop only lowers the `isTraining` flag.
  - The interval is explicit state: `timerAlive` says whether it is armed,
    and `step`/`totalSteps` are the variables its closure captured. A firing
    is a call of `Tick`.
- **DatasetStore** (`dataset_manager.dfy`): the DatasetManager component.
  - Adding a pair is checked with JavaScript `trim` and stores the trimmed texts.
  - Removing is a filter by id.
  - Import appends the parsed items.
  - The total and annotated counts.
- **Annotation** (`annotation_interface.dfy`): the AnnotationInterface component.
  - A review cursor over a list of comparison pairs, moved by the Previous,
    Next and Skip buttons.
  - Recording a preference at the cursor.
  - Progress, completion and the per-preference counts.
- **ComparisonWidget** (`comparison_pair.dfy`): the ComparisonPair widget.
  - Its local selection and reasoning.
  - The `(preference, reasoning)` message each handler sends to the parent.
- **Workflow** (`workflow_dashboard.dfy`): the WorkflowDashboard component.
  - Two constant pipeline catalogues, a selector and a Running/Paused toggle.
  - The completion percentage of the shown pipeline.
- **Common** (`common.dfy`): what the components share.
  - `String.prototype.trim` over the ECMAScript white-space set.
  - Counting preferences.
  - The exact percentage `(part / whole) * 100`.

Percentages are exact `real`s, not floating point. Strings are `seq<char>`.

The model keeps these quirks of the code:

- The epoch shown is `floor(step / 100) + 1`. At the final step of an
  `n`-epoch run it reads `n + 1`, not `n` (`Training.EpochRange`).
- Nothing in the code guards against starting a job that is already running;
  the model instead requires that no timer is armed (see the
  `Training.DPOTraining.StartTraining` line under "## Left out").
- Stop does not clear the interval, so ticks go on advancing the job after a
  stop (`Training.StopThenTick`).
- The "Reset Pipeline" button has no click handler.
- Import does not check ids, so it can duplicate them
  (`DatasetStore.ImportDoesNotReconcileIds`).
- The start check in `startTraining` is on emptiness, not on `trim`.

## Model

| member | source | states |
|---|---|---|
| Common.SkipLeading | src/components/dataset-manager.tsx:30 | the first index at or after `i` that is not white space; everything skipped is white space |
| Common.SkipTrailing | src/components/dataset-manager.tsx:30 | the end index after dropping trailing white space; everything dropped is white space |
| Common.Trim | src/components/dataset-manager.tsx:30 | `trim` never lengthens a text, and what it returns neither starts nor ends with white space |
| Common.TrimShape | src/components/dataset-manager.tsx:30-43 | `trim` returns a contiguous slice whose prefix and suffix in the input are all white space, and whose own ends are not white space |
| Common.TrimEmptyIff | src/components/dataset-manager.tsx:30 | `!s.trim()` holds exactly when every character of `s` is white space |
| Common.TrimIdempotent | src/components/dataset-manager.tsx:41-43 | trimming a trimmed text changes nothing |
| Common.AnnotatedCount | src/components/annotation-interface.tsx:48 | the number of items with a preference never exceeds the number of items |
| Common.CountOf | src/components/annotation-interface.tsx:186-198 | the count of any one preference never exceeds the annotated count |
| Common.CountsSumToAnnotated | src/components/annotation-interface.tsx:186-198 | the A, B and tie counts add up to the annotated count |
| Common.AnnotatedCountAppend | src/components/dataset-manager.tsx:108 | the annotated count of a concatenation is the sum of the parts' counts |
| Common.CountsAfterRecord | src/components/annotation-interface.tsx:50-57 | recording `p` in a slot adds one to the annotated count if the slot was empty, and one to the count of `p` unless the slot already held `p` |
| Common.Percent | src/components/annotation-interface.tsx:47 | `(part / whole) * 100` is non-negative; it is 0 iff the part is 0, at most 100 while part <= whole, and 100 iff part == whole |
| Common.RatioAgainstOne | src/components/workflow-dashboard.tsx:158 | `part / whole` is below, at or above 1 as the part is below, at or above the whole, and 0 only for no part |
| Common.PercentMonotone | src/components/dpo-training.tsx:66 | a larger part gives a strictly larger percentage |
| DatasetStore.TotalCount | src/components/dataset-manager.tsx:109 | `totalCount` is 0 only for an empty dataset and never below the annotated count |
| DatasetStore.AnnotatedItems | src/components/dataset-manager.tsx:108-109 | `annotatedCount` is at most `totalCount`; it is 0 when no item has a preference and equals the total when all have one |
| DatasetStore.AllOrNone | src/components/dataset-manager.tsx:108 | no preferences give count 0; all preferences give the full length |
| DatasetStore.CanAdd | src/components/dataset-manager.tsx:30 | the add check passes iff none of prompt, response A and response B consists only of white space |
| DatasetStore.NewItem | src/components/dataset-manager.tsx:39-45 | the added item carries the given id and time, no preference and no reasoning |
| DatasetStore.NewItemIsTrimmed | src/components/dataset-manager.tsx:29-45 | after a passing check, the stored texts are non-empty and already trimmed |
| DatasetStore.RemoveById | src/components/dataset-manager.tsx:58-59 | the result holds exactly the items whose id differs, and is no longer than the input |
| DatasetStore.RemoveByIdAppend | src/components/dataset-manager.tsx:59 | removal works item by item, so the survivors keep their relative order |
| DatasetStore.RemoveByIdLength | src/components/dataset-manager.tsx:59 | every item with the id goes: the length drops by the number of items carrying it, and none remains |
| DatasetStore.RemoveAbsentId | src/components/dataset-manager.tsx:59 | removing an id no item carries leaves the dataset unchanged |
| DatasetStore.RemoveByIdIdempotent | src/components/dataset-manager.tsx:59 | removing the same id twice is the same as removing it once |
| DatasetStore.MergeImport | src/components/dataset-manager.tsx:89-103 | on a parse failure the dataset is unchanged; otherwise it is the old dataset followed by all parsed items in their order |
| DatasetStore.ImportDoesNotReconcileIds | src/components/dataset-manager.tsx:92 | importing a non-empty list into a store that already holds it yields duplicate ids |
| DatasetStore.ImportCounts | src/components/dataset-manager.tsx:92-109 | import adds the imported items to both counts; importing into an empty store gives exactly the parsed list |
| DatasetStore.AddCounts | src/components/dataset-manager.tsx:108-109 | an add grows the total by one and leaves the annotated count unchanged |
| DatasetStore.DatasetManager.constructor | src/components/dataset-manager.tsx:23-26 | an empty dataset and three empty inputs |
| DatasetStore.DatasetManager.SetNewPrompt | src/components/dataset-manager.tsx:24 | the prompt input takes the typed value; nothing else changes |
| DatasetStore.DatasetManager.SetNewResponseA | src/components/dataset-manager.tsx:25 | the response A input takes the typed value; nothing else changes |
| DatasetStore.DatasetManager.SetNewResponseB | src/components/dataset-manager.tsx:26 | the response B input takes the typed value; nothing else changes |
| DatasetStore.DatasetManager.AddDataPoint | src/components/dataset-manager.tsx:29-56 | the add succeeds iff all three inputs keep a character after `trim`. A refused add changes nothing. A successful one appends exactly the trimmed item and clears the three inputs |
| DatasetStore.DatasetManager.RemoveDataPoint | src/components/dataset-manager.tsx:58-59 | the dataset becomes the filter by id; the inputs are untouched |
| DatasetStore.DatasetManager.ImportDataset | src/components/dataset-manager.tsx:88-105 | reports success ("Dataset Imported") iff the file gave a list of items; the dataset becomes the merge |
| ComparisonWidget.ComparisonPair.constructor | src/components/comparison-pair.tsx:24-25 | the selection starts as `data.preference`; the reasoning starts as the stored one, or `""` when there is none |
| ComparisonWidget.ComparisonPair.HandlePreferenceSelect | src/components/comparison-pair.tsx:27-30 | selects `p` and sends `(p, reasoning so far)`, so the parent is in sync |
| ComparisonWidget.ComparisonPair.HandleReasoningChange | src/components/comparison-pair.tsx:32-37 | always keeps the text; sends `(selection, text)` iff a preference is selected |
| ComparisonWidget.ComparisonPair.Reset | src/components/comparison-pair.tsx:124-128 | clears selection and reasoning, yet sends `("A", "")`, which leaves the parent out of sync with the widget |
| ComparisonWidget.ComparisonPair.Save | src/components/comparison-pair.tsx:135-138 | sends `(selection, reasoning)` iff a preference is selected, and changes nothing |
| Annotation.SampleData | src/components/annotation-interface.tsx:20-39 | three demonstration pairs, none annotated |
| Annotation.Record | src/components/annotation-interface.tsx:50-57 | the slot at the cursor gets the preference and reasoning (an absent reasoning clears it) and keeps id and texts; every other slot and the length are unchanged |
| Annotation.RecordCounts | src/components/annotation-interface.tsx:48-57 | recording adds to the annotated count exactly when the slot was empty, and the three counts still sum to it |
| Annotation.ResetRecordsPreferenceA | src/components/annotation-interface.tsx:123-128 | the widget's Reset makes the parent record A: it never un-annotates a pair and annotates an empty one |
| Annotation.Navigate | src/components/annotation-interface.tsx:65-80 | Previous steps back unless at 0; Next and Skip step forward unless at the last index; the cursor stays in range and moves at most one |
| Annotation.RunStaysInRange | src/components/annotation-interface.tsx:42-80 | from any valid position, any sequence of Previous, Next and Skip keeps the cursor in `[0, length - 1]` |
| Annotation.RepeatedNext | src/components/annotation-interface.tsx:71-75 | `k` presses of Next reach `min(index + k, length - 1)` |
| Annotation.NextPreviousInverse | src/components/annotation-interface.tsx:65-75 | away from the boundaries, Next and Previous undo each other |
| Annotation.Progress | src/components/annotation-interface.tsx:47 | progress lies in `(0, 100]` and is 100 iff the cursor is on the last pair |
| Annotation.IsComplete | src/components/annotation-interface.tsx:87 | `isComplete` holds iff progress reads 100 and the pair under the cursor has a preference |
| Annotation.CompleteMeansFullProgress | src/components/annotation-interface.tsx:87 | completion implies progress 100 and at least one annotated pair; recording on the last pair completes |
| Annotation.AnnotationInterface.constructor | src/components/annotation-interface.tsx:42-43 | the cursor is at 0 over the sample pairs |
| Annotation.AnnotationInterface.HandlePreferenceSelect | src/components/annotation-interface.tsx:50-57 | the list becomes the record at the cursor; the cursor is unchanged |
| Annotation.AnnotationInterface.Receive | src/components/annotation-interface.tsx:123-128 | a message from the widget is recorded at the cursor |
| Annotation.AnnotationInterface.GoToPrevious | src/components/annotation-interface.tsx:65-69 | the cursor takes the Previous move; the list is unchanged |
| Annotation.AnnotationInterface.GoToNext | src/components/annotation-interface.tsx:71-75 | the cursor takes the Next move; the list is unchanged |
| Annotation.AnnotationInterface.SkipCurrent | src/components/annotation-interface.tsx:77-85 | the cursor moves exactly as with Next, whatever the pair holds |
| Workflow.CompletedSteps | src/components/workflow-dashboard.tsx:156 | at most the number of steps, and equal to it iff every step is completed |
| Workflow.Progress | src/components/workflow-dashboard.tsx:157-158 | lies in `[0, 100]`; 100 iff every step is completed, 0 iff none is |
| Workflow.JsRound | src/components/workflow-dashboard.tsx:225 | `Math.round` on a non-negative figure: the nearest integer, halves rounding up |
| Workflow.DpoCatalogueProgress | src/components/workflow-dashboard.tsx:18-88 | the DPO catalogue has 2 of 6 steps completed: progress 100/3, shown as 33 |
| Workflow.RlhfCatalogueProgress | src/components/workflow-dashboard.tsx:90-149 | the RLHF catalogue has 2 of 5 steps completed: progress 40, shown as 40 |
| Workflow.CatalogueIdsUnique | src/components/workflow-dashboard.tsx:18-149 | step ids are unique within each catalogue |
| Workflow.WorkflowDashboard.constructor | src/components/workflow-dashboard.tsx:152-153 | the DPO pipeline is shown and running |
| Workflow.WorkflowDashboard.CurrentWorkflow | src/components/workflow-dashboard.tsx:155 | the DPO steps while "dpo" is selected, the RLHF steps otherwise; never empty |
| Workflow.WorkflowDashboard.ToggleRunning | src/components/workflow-dashboard.tsx:174 | flips the Running/Paused flag and nothing else |
| Workflow.WorkflowDashboard.SelectWorkflow | src/components/workflow-dashboard.tsx:190-197 | shows the chosen pipeline and leaves the flag alone |
| Workflow.WorkflowDashboard.ResetPipeline | src/components/workflow-dashboard.tsx:249-252 | the button without a handler changes nothing |
| Workflow.PauseThenResume | src/components/workflow-dashboard.tsx:174 | toggling twice restores the flag and touches neither the selection nor the steps |
| Workflow.SelectTwice | src/components/workflow-dashboard.tsx:190-197 | selecting twice is selecting once, and leaves the flag alone |
| Training.SetField | src/components/dpo-training.tsx:100-102 | `updateConfig` changes exactly the named field; every other field keeps its value |
| Training.DefaultConfigValid | src/components/dpo-training.tsx:26-35 | every default value is one its control can produce (`Fits`) |
| Training.ConfigStaysValid | src/components/dpo-training.tsx:147-231 | with `Fits` giving what each control can hand over (learning rate 1e-5..1e-4, beta 0.01..0.5, the listed batch sizes and epoch counts, integers and texts elsewhere), the defaults are producible and every update keeps every field producible; the epoch count stays at least 1 |
| Training.Decimal | src/components/dpo-training.tsx:77 | the step in a log line is written as decimal digits with no leading zero |
| Training.DecimalRoundTrip | src/components/dpo-training.tsx:77 | the step written into a log line reads back as that step |
| Training.LastLogs | src/components/dpo-training.tsx:77 | `.slice(-10)`: at most ten entries, and they are the last ones of the input, in order |
| Training.LastLogsAppend | src/components/dpo-training.tsx:77 | truncating after every append keeps what truncating the whole history once would, evicting oldest first |
| Training.RenderLastLogs | src/components/dpo-training.tsx:77 | rendering and truncation commute |
| Training.RenderedLogUpdate | src/components/dpo-training.tsx:77 | with `LogRecord.Line` the template `Step ${step}: Loss=${loss}, Accuracy=${accuracy}`, the text buffer update `[...prev, line].slice(-10)` is the rendering of the same update on entries |
| Training.EpochAt | src/components/dpo-training.tsx:67 | `Math.floor(step / 100) + 1` is the `e >= 1` with `(e - 1) * 100 <= step < e * 100` |
| Training.EpochRange | src/components/dpo-training.tsx:61-67 | during a run the epoch stays in `[1, epochs + 1]` and is `epochs + 1` exactly at the final step |
| Training.ThreeEpochRun | src/components/dpo-training.tsx:61-67 | with the default 3 epochs the run ends at step 300 with progress 100 and epoch 4; step 299 shows epoch 3 |
| Training.LogTick | src/components/dpo-training.tsx:74-78 | a tick adds an entry to the history and the buffer exactly on multiples of ten, and the buffer stays the last ten of the history |
| Training.FiguresTick | src/components/dpo-training.tsx:65-82 | a tick shows the new step, epoch and percentage; the percentage grows; the last step shows 100 and epoch `epochs + 1` |
| Training.DPOTraining.LogLines | src/components/dpo-training.tsx:314 | one text line per log entry |
| Training.DPOTraining.constructor | src/components/dpo-training.tsx:26-41 | the default configuration, all figures 0, an empty log, no timer |
| Training.DPOTraining.StartTraining | src/components/dpo-training.tsx:44-64 | starts iff model name and dataset path are non-empty. A refused start changes nothing. A start resets progress, epoch, step and log, fixes `totalSteps = epochs * 100` and arms the timer |
| Training.DPOTraining.Tick | src/components/dpo-training.tsx:64-88 | a disarmed timer changes nothing. An armed one advances the step by one and the percentage grows. The log is updated on multiples of ten. The timer stays armed iff steps remain. The last step shows progress 100 and epoch `epochs + 1` |
| Training.DPOTraining.Advance | src/components/dpo-training.tsx:65-87 | step + 1; shown step, `progress = step / totalSteps * 100` and `epoch = step / 100 + 1`; the log entry on multiples of ten; timer cleared and training off when step reaches totalSteps |
| Training.DPOTraining.StopTraining | src/components/dpo-training.tsx:91-98 | only `isTraining` drops; step, figures, log and the live timer are untouched |
| Training.DPOTraining.UpdateConfig | src/components/dpo-training.tsx:100-102 | the configuration becomes the one-field update; the job is untouched |
| Training.RunToCompletion | src/components/dpo-training.tsx:64-88 | configuration, `totalSteps` and epoch count are kept; an armed timer stops after exactly the remaining steps. It leaves step == totalSteps, progress 100, epoch `epochs + 1`, the "Training Complete!" banner, and a full log of the last ten multiples of ten, oldest first |
| Training.BannersFollowStep | src/components/dpo-training.tsx:290-299 | with `ShowsCompleteBanner` the condition at :296 and `ShowsStartHint` the one at :290, "Training Complete!" shows iff a job ran all its steps and is not training; the start hint shows iff no step has run; never both |
| Training.DefaultJobAfterStop | src/components/dpo-training.tsx:26-98 | the default job, started and stopped at once, still runs 300 ticks to progress 100, epoch 4, the completion banner and a log of steps 210 to 300 |
| Training.StopThenTick | src/components/dpo-training.tsx:91-98 | a tick after a stop still advances the step while the flag stays down |

## Left out

- Rendering: JSX, cards, sliders, badges, CSS, the theme toggle and the toasts, which are presentation only.
- Timer scheduling: the 200 ms `setInterval` period. A firing is an explicit `Tick` call.
- Training.DPOTraining.StartTraining: requires that no timer is armed. A restart while an old interval is still armed would run two intervals at once, which is concurrency; the leak is only described.
- `Math.random` and `toFixed` for the loss and accuracy of a log line. They are text parameters of the entry.
- Training.DPOTraining.logs: holds entries (step, loss, accuracy) rather than the formatted strings. `LogLines` gives the text and `RenderedLogUpdate` proves the two buffers agree.
- Floating point: `Math.round` is modelled only for the two dashboard figures. Slider scaling (`value / 100000`, `value / 100`) is folded into the value ranges of `Fits`. Percentages are exact.
- `JSON.parse`, `JSON.stringify`, `FileReader`, `Blob` and the download/upload DOM calls are browser I/O and library parsing. Import takes the parsed outcome as an `Option` of well-formed items, so the code's lack of a shape check is not modelled: a parsed record with a missing field, or a `preference` such as `""` or `"C"` (which the annotated count at `dataset-manager.tsx:108` judges by truthiness), cannot be expressed. `None` when `JSON.parse` throws or the value cannot be spread (a number, an object, `null`), which is where "Import Error" shows. Export is not modelled.
- DatasetStore.DatasetManager.ImportDataset: no file chosen returns before anything happens (no toast, no change) and is not a call of this method. A top-level JSON string is iterable, so the component spreads it into single characters, appends them and reports success; an `Option<seq<DatasetItem>>` cannot hold that outcome, so it is not modelled.
- `Date.now()` ids and `new Date()` timestamps are nondeterministic. They are parameters; `created` is an integer.
- Training.SetField and Training.UpdateConfig: `parseInt` on the warm-up and save-step inputs can produce `NaN`, and arbitrary key/value pairs are not accepted; the model takes a whole number for those inputs and accepts only what `Fits` allows.
- The ComparisonPair widget is rendered without a `key`, so its local state outlives a change of item. That is React reconciliation, and it is not modelled.
- src/components/workflow-step.tsx, src/components/dpo-platform.tsx and src/pages/Index.tsx are presentation wiring and are not part of this model.

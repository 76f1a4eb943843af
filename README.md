# Pressure-advance test post-processor, modelled in Dafny

`pa_test.py` post-processes a sliced G-code file that prints several copies of a
pressure-advance (PA) test object. It works in two passes over the file's lines.

- **Analysis** (`GCodeAnalyze`): the first pass reads the slicer settings from the
  comment lines. It records the layers that contain infill and the bounding box of
  each object's perimeter moves. It sorts the boxes front row first, renumbers them
  1..N, and plans one PA value per object.
  - `calcStep` spreads the values evenly between a start and an end value.
  - `checkConditions` lists the slicer settings the tool needs but the file lacks.
- **Rewrite** (`GCodeChange.Change`): the second pass copies every line. After each
  object start it writes that object's `M900 K<value>`. At the first object end after
  the first layer without infill, it draws every value as a small extruded number
  beside its box, followed by `G92 E0`.
- **Extruder helper**: writes the retract, unretract and extrusion texts the labels use.
- **`remove_pp_extension`**: maps the input file name to the name of the G-code file.

The modules follow the program.

| module | file | models |
|---|---|---|
| `Text` | text.dfy | substring, token and digit helpers, `str()` of a PA value, `remove_pp_extension` |
| `Python` | python.dfy | the exceptions the core raises, the number conversions of the interpreter (`Host`), and indexing with negative indices |
| `Settings` | config.dfy | the thirteen setting markers and their conversions |
| `Boxes` | boxes.dfy | box widening, the stable sort and the renumbering |
| `PaSteps` | steps.dfy | the run of PA values and `calcStep`'s plan |
| `ExtruderModel` | extruder.dfy | the `Extruder` class |
| `Analysis` | analyze.dfy | the `GCodeAnalyze` class, the scan as a function, `checkConditions` |
| `Rewrite` | change.dfy | the glyph table and the rewrite as functions over pieces of output |
| `ChangePass` | pass.dfy | `Change` and its nested loops, as methods proved against `Rewrite` |

The source works in place, so the model does too:
- `GCodeAnalyze` and `Extruder` are classes whose methods update their fields.
- The loops of `analyzeFile`, `calcStep` and `Change` are `while` and `for` loops.

Each method is proved equal to a specification function. The properties are then
proved about those functions:
- the scan's boxes only grow and cover every perimeter point;
- the sort is a stable permutation;
- without an exception, the rewrite writes `Layout`, one block per input line in
  order: the line itself, then `steps[id-1]` right after an object start, then the
  labels and `G92 E0` after the first object end at or after a layer without infill,
  and nothing more;
- the labels alternate retract and unretract correctly and stay next to their box.

An exception that the source would raise is a value here. The method returns what was
done up to that point, together with the exception.

The `M900` value is `steps[id - 1]` for the raw object id on the start line, with Python's
negative index for id 0. It is not the value of the renumbered box.

## Model

| member | source | states |
|---|---|---|
| ExtruderModel.StripZeros | pa_test.py:36-37 | the result is the suffix of the input left after dropping leading `'0'`s only; it is empty or does not start with `'0'` |
| ExtruderModel.StripLeadingZeros | pa_test.py:36-37 | the loop that drops leading zeros computes `StripZeros` |
| ExtruderModel.RetractText | pa_test.py:40-47 | `G10 ; retract` exactly when firmware retraction is on (flag 1); otherwise `G1 E-<length without leading zeros> F<speed*60, no decimals>  ; retract` |
| ExtruderModel.UnretractText | pa_test.py:49-56 | `G11 ; unrectract` exactly when firmware retraction is on; otherwise the same amount pushed back with `G1 E<length>` |
| ExtruderModel.RetractDiffersFromUnretract | pa_test.py:40-56 | a retract line never equals an unretract line, in either retraction mode |
| ExtruderModel.ExtrusionTextSymmetric | pa_test.py:33-38 | the extrusion amount of a segment does not depend on its direction and has no leading zero |
| ExtruderModel.Extruder.constructor | pa_test.py:21-31 | the class defaults: nozzle 0.4, width 0.42, layer 0.2, no firmware retraction, length 0.8, speed 0.8 |
| ExtruderModel.Extruder.CalcExtrusionOnLengthByCoords | pa_test.py:33-38 | the text is the segment length times width, layer height and nozzle diameter, with five decimals and no leading zeros |
| ExtruderModel.Extruder.Retract | pa_test.py:40-47 | returns `RetractText` of the helper's current settings |
| ExtruderModel.Extruder.Unretract | pa_test.py:49-56 | returns `UnretractText` of the helper's current settings |
| PaSteps.StepsClosedForm | pa_test.py:98-105 | value `k` of the run is `start + k * step`, and consecutive values differ by `step` |
| PaSteps.RoundDivNearest | pa_test.py:95 | the rounded step is within half a thousandth of the exact quotient |
| PaSteps.CalcStepMeaning | pa_test.py:91-107 | a refused argument or no objects leaves the plan unchanged; otherwise the plan has `n` values from the start in equal steps, the step is the nearest thousandth to `(end - start) / n`, the end is one step past the last value, and it equals `end` when the division is exact |
| Analysis.GCodeAnalyze.constructor | pa_test.py:58-89 | the class defaults: PA 0.13 in steps of 0.005, end 0, the default settings, no boxes, no layers |
| Analysis.GCodeAnalyze.CalcStep | pa_test.py:91-107 | the plan becomes `CalcStepPlan` of the old plan; its meaning is `PaSteps.CalcStepMeaning` |
| Analysis.GCodeAnalyze.ObjectMarks | pa_test.py:123-130 | the object-marker part of the loop body is `ObjectStage` of the scan state: an object start whose line has no digits raises IndexError; otherwise the id becomes current, `maxval` grows, and a new id gets an unset box |
| Analysis.GCodeAnalyze.LayerMarks | pa_test.py:132-140 | the layer part of the loop body is `LayerStage`: a layer line records the layer before it when that layer had infill, and reading `currentZ` before any layer line raises AttributeError |
| Analysis.GCodeAnalyze.PerimeterPoint | pa_test.py:182-196 | a perimeter move inside an object widens its box by X, then by Y, as `PointStage`; a coordinate `float()` refuses raises ValueError after the earlier bounds are kept |
| Analysis.GCodeAnalyze.ReadLine | pa_test.py:121-196 | one pass of the loop body is `ScanLine` of the scan state |
| Analysis.GCodeAnalyze.ScanFile | pa_test.py:119-196 | the loop over the lines ends in the state and exception of `ScanUpTo` over all lines |
| Analysis.GCodeAnalyze.Renumber | pa_test.py:199-203 | the boxes become the stably sorted boxes, keyed 1..N in order |
| Analysis.GCodeAnalyze.ProvisionalSteps | pa_test.py:206-211 | appends `count` values from `startPA` in steps of `stepPA` |
| Analysis.GCodeAnalyze.ReadFile | pa_test.py:111-196 | resets the values and infill layers, then scans; the fields are those of the scan |
| Analysis.GCodeAnalyze.PlanObjects | pa_test.py:199-213 | renumbers the boxes, makes the provisional run, sets `instances` to its length and calls `calcStep(startPA, instances * stepPA)` |
| Analysis.GCodeAnalyze.AnalyzeFile | pa_test.py:109-214 | on an exception the fields keep what the scan did; otherwise the boxes are renumbered 1..N in sorted order, `instances` is the largest object id, and the plan is `calcStep(startPA, instances * stepPA)` after the provisional run |
| Analysis.GCodeAnalyze.CheckConditions | pa_test.py:262-278 | exit code 3 exactly when some setting is wrong and `doNotRaise` is false; otherwise the problems text |
| Analysis.ScanErrorStays | pa_test.py:121-196 | after the first exception the scan reads no further line |
| Analysis.ScanLineLayers | pa_test.py:132-140 | a layer line records the layer it closes exactly when that layer had infill; the infill flag is then set by the line alone |
| Analysis.ScanLineUnsetLayer | pa_test.py:132-134 | a layer line after infill, in a session that never read a layer line, raises AttributeError |
| Analysis.ScanObjects | pa_test.py:123-128 | after a scan without error, the boxes are exactly the old ones and those of the started ids, and `maxval` is the largest started id |
| Analysis.ScanWidensFrom | pa_test.py:182-196 | between any two lines of a scan without error, every box only grows |
| Analysis.ScanCoversPoints | pa_test.py:182-196 | after a scan without error, every box is consistent and covers every perimeter point read while its object was current |
| Analysis.ProblemsMeaning | pa_test.py:262-270 | the problems text is empty exactly when verbose G-code, firmware labels and relative extrusion are all on; each of the three messages appears exactly when its setting is off |
| Analysis.ProvisionalStepExample | pa_test.py:206-213 | with the defaults and two objects, the provisional `calcStep` makes the step -0.06, not 0.005 |
| Analysis.ProvisionalStepShort | pa_test.py:212-213 | whenever the start value exceeds half a thousandth per object, the provisional step is smaller than `stepPA` |
| Settings.LineSettingsErrors | pa_test.py:142-179 | the exception that stops a line's settings is IndexError from `split()[-1]` or ValueError from a conversion |
| Settings.ConfigLineEffect | pa_test.py:142-179 | a line read without error sets exactly the settings whose markers it holds, each to its last word converted, and leaves the others alone |
| Settings.NoMarkerNoChange | pa_test.py:142-179 | a line without any marker changes nothing and raises nothing |
| Boxes.SortBoxes | pa_test.py:200 | the result is sorted by (minY, maxX) and is a permutation of the input |
| Boxes.SortBoxesStable | pa_test.py:200 | boxes with equal keys keep their relative order, as Python's `sorted` does |
| Boxes.RenumberedRoundTrip | pa_test.py:201-203 | the renumbered boxes have exactly the keys 1..N, and read back in insertion order they are the sorted boxes |
| Boxes.KeysInOrderCount | pa_test.py:127-128 | the number of boxes is the number of distinct ids in their insertion order |
| Rewrite.GlyphShape | pa_test.py:290-303 | exactly the digits, `.` and `,` have glyphs; each stays in its cell and ends with a pen-up move to the next cell |
| Rewrite.PaTextGlyphs | pa_test.py:343-344 | every character of `str(step)` has a glyph exactly when the value is not negative; a negative value stops at `'-'` |
| Rewrite.LabelRetract | pa_test.py:338-367 | a label entered retracted alternates retract and unretract correctly; when it is drawn whole it leaves the filament retracted |
| Rewrite.LabelsErrors | pa_test.py:331-344 | all labels are drawn exactly when every value has a box and is not negative |
| Rewrite.LabelsRetract | pa_test.py:331-367 | all the labels alternate retract and unretract correctly, and leave the filament retracted when all are drawn |
| Rewrite.LabelInBand | pa_test.py:334-349 | every move of a label stays in the band that starts `offset_x` right of and `offset_y` behind the box's front-left corner, one glyph high |
| Rewrite.ObjectValue | pa_test.py:322-325 | when the values run from `pa` in steps of `step`, object `id` gets `pa + (id - 1) * step`, id 0 gets the last value, and an id past the last raises IndexError |
| Rewrite.RewriteFile | pa_test.py:316-371 | counted over the whole output: the copied lines are a prefix of the input, all of it without an exception; the `M900` values are a prefix of `steps[id-1]` over the start lines in order, all of them without an exception; `G92 E0` is written once if the labels were written and never otherwise; the wait for the labels' layer holds exactly when no layer lacks infill |
| Rewrite.ChangeNoneBefore | pa_test.py:319-369 | a rewrite that ends without an exception raised none on any shorter prefix of the lines |
| Rewrite.LineBlock | pa_test.py:320-369 | on a line that raises nothing, one step of the rewrite writes exactly `LinePieces` of that line: the line, its `M900` if it starts an object, and the labels with `G92 E0` if it is the first object end after a free layer |
| Rewrite.ChangeLayout | pa_test.py:319-369 | a rewrite of the first `n` lines that ends without an exception writes exactly `Layout` of those lines, the blocks of the lines in order |
| Rewrite.RewriteLayout | pa_test.py:316-369 | `ChangeLayout` applied to the whole file: without an exception the output is `Layout` of its lines. It also restates, as a reading aid, the definitions of a block's head and of the labels' place in terms of the input lines |
| Rewrite.LinePiecesShape | pa_test.py:320-325 | a reading aid that unfolds `LinePieces`, adding nothing to `ChangeLayout`: a block starts with its line, after an object start the next piece is `M900` with `steps[id-1]`, and any other line that is not the labels' place is copied alone |
| Rewrite.FirstLabelPlaceOnce | pa_test.py:326-369 | the labels' place is unique: no later line is the first object end after a free layer |
| Rewrite.LabelsPlaced | pa_test.py:326-329 | without an exception, the labels are written exactly when some object end comes at or after a layer line without infill |
| Rewrite.ChangeWaiting | pa_test.py:316-328 | without an exception, the pass waits for the labels' layer until the first layer line without infill |
| Rewrite.ChangeWritten | pa_test.py:326-368 | once the labels are written, the pass no longer waits |
| ChangePass.ChangedExtruder | pa_test.py:308-311 | nozzle, retraction flag, length and speed come from the analyser; extrusion width and layer height stay as they were |
| ChangePass.ChangeJob | pa_test.py:305-311 | the rewrite reads the analyser's values, boxes, infill layers and speeds, and the updated extruder settings |
| ChangePass.DrawPoint | pa_test.py:346-366 | one glyph point writes the texts of `StrokeStep` and moves the pen to the point |
| ChangePass.DrawGlyph | pa_test.py:345-366 | the loop over a glyph's points writes the texts of `StrokesUpTo` and ends with its pen |
| ChangePass.DrawChar | pa_test.py:343-367 | one character writes the feed and its glyph, as `CharStep`, or raises KeyError without a glyph |
| ChangePass.StartLabel | pa_test.py:339-342 | a label starts with the travel to its start point and an unretract, the texts of `LabelStart` and `Unretract` |
| ChangePass.DrawChars | pa_test.py:343-366 | the loop over the characters of `str(step)` writes the texts of `CharsUpTo` over the whole text after what was written before, and ends with its exception |
| ChangePass.DrawLabel | pa_test.py:332-367 | one label writes the texts of `LabelPieces` and ends with its exception |
| ChangePass.DrawLabels | pa_test.py:331-367 | the loop over the values writes the texts of `Labels`, stopping at KeyError |
| ChangePass.CopyLine | pa_test.py:321-325 | a line is copied, then the value `steps[id - 1]` after an object start, as `CopyPieces` |
| ChangePass.WriteLabels | pa_test.py:326-369 | the label stage of a line is `LabelStage` |
| ChangePass.ChangeLine | pa_test.py:320-369 | the loop body over one line is `LineStep` |
| ChangePass.SetExtruder | pa_test.py:308-311 | the helper's settings become `ChangedExtruder` of the old ones |
| ChangePass.ChangeTextLayout | pa_test.py:305-371 | without an exception, the texts `Change` writes are those of `Layout` |
| ChangePass.Change | pa_test.py:305-371 | the extruder is updated, and the written texts and the exception are those of `ChangeText`, whose properties are `Rewrite.RewriteFile`, `Rewrite.RewriteLayout` and `Rewrite.LabelsPlaced` |
| Python.PyIndex | pa_test.py:325 | `xs[i]` exists exactly for `-len <= i < len`; negative indices count from the end |
| Text.FirstNumber | pa_test.py:124 | no number exactly when the line has no digit, where `re.findall(...)[0]` raises IndexError |
| Text.PaTextRoundTrip | pa_test.py:325 | `str()` of a PA value read back gives the same number of thousandths |
| Text.RemovePpExtension | pa_test.py:378-381 | a trailing `.pp` is dropped, and any other name is left alone |

## Left out

- Opening, reading and writing files, `os.remove` and `os.rename`: a file is a sequence of its lines, and the rewrite returns its lines of output. The temporary file is never renamed over the input when an exception interrupts the rewrite. That case is modelled as the text written so far plus the exception.
- Each line keeps its trailing `"\n"`, as Python's file iteration yields it.
- Logging, `print`, the `argparse` front end and the interactive `askParams` (pa_test.py:216-260, 383-409) are not modelled, because they are input and output. The main program's call order is not modelled either; only `Text.RemovePpExtension` from that part is.
- Python's `int()`, `float()`, `str()` of a float, the f-string `f"{x:.Nf}"` and `math.sqrt` are the fields of `Python.Host`. They are parameters, so the model states where their results go but not what they are.
- PA values are held as integer thousandths, so the start and end values given to `calcStep` (pa_test.py:91-107) are taken to be multiples of 0.001. The defaults are: 0.05 and 0.15 on the command line (pa_test.py:387-388), 0.13 and 0.005 in the class (pa_test.py:61-62). The step is formatted to three decimals and every later value is rounded to thousandths, so from such a start `round((pa + step) * 1000) / 1000` is exact addition. A start or end with more decimals, such as `-startPA 0.0525`, is outside the model: the tool would write `M900 K0.0525` and round the next value from 65.5 thousandths. Binary floating point is not modelled.
- PaSteps.CalcStepPlan: rounds the exact quotient `(end - start) / n` to the nearest thousandth, with halves away from zero. Python formats the nearest binary float of that quotient, so a decimal tie may round the other way. For example, from 0.05 to 0.15 over 8 objects, Python's step is 0.012 and the model's is 0.013.
- Analysis.GCodeAnalyze.CalcStep: has the same tie rounding as `PaSteps.CalcStepPlan`. At a decimal tie its plan may differ from Python's by one thousandth per step.
- Analysis.GCodeAnalyze.CalcStep: takes its start and end in whole thousandths, so a run that starts from a value with more decimals cannot be expressed (see the thousandths line above).
- Analysis.GCodeAnalyze.CalcStep: the bare `except: pass` is modelled for the refused `float()` arguments (`None` inputs) and for the division by zero with no objects, which are the only exceptions it can meet.
- Text.FirstNumber: matches `\d` as the ASCII digits `0`-`9` only, while Python's `re` also matches other Unicode decimal digits.
- Text.PaText: writes `str()` of a value in thousandths as digits, a point and one to three decimals. It never produces the exponent form that `str()` uses for very small or very large floats, nor `nan` or `inf`.
- Analysis.ScanCoversPoints: a box bound of -1 means "not set yet", so a real coordinate of -1.0 is mistaken for an unset bound. The coverage lemmas assume that no perimeter line has a coordinate of -1.0 (`PointOk`). The scan itself models the collision as written.
- The analyser's attributes are class attributes that Python shares between instances until they are assigned. The model gives each analyser object its own fields, including the `sizes` that persist from one `analyzeFile` call to the next.
- `self.dict = ()` and `self.layers = ()` in `analyzeFile`, which are never read, are left out.

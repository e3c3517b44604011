# Plant-disease diagnosis record, modelled in Dafny

This project models the post-processing half of `model_prediction` in the
plant-disease detection server (`server/disease_detection.py`). Once the
pipeline has produced a class index, this step:

- looks the index up in the fixed table of 38 class labels;
- splits the label on `"__"` into a plant name and a disease part;
- turns the underscores of the disease part into spaces;
- looks the disease up in a five-entry advice table, falling back to generic advice;
- derives a simulated confidence of `85 + index % 15`;
- marks the severity `High` exactly when the lower-cased disease name contains `"blight"`.

Any exception anywhere in the function becomes a failure record whose error
text is `"Disease detection failed: "` followed by the exception's message.

The model is pure, like the source function: datatypes for the records,
functions for each step, and lemmas for what the steps guarantee.

- `wrappers.dfy`: `Option` and `Result`.
- `pystr.dfy` (module `PyStr`): the Python string operations the step relies on, each with its contract:
  - substring search (`in`, `find`);
  - `split` on a multi-character separator, with `join` as its inverse;
  - one-character `replace`;
  - ASCII `lower`.
- `disease_detection.dfy` (module `DiseaseDetection`): the class table, the advice table, the default advice and error texts, and the step itself:
  - `ResultIndex`, `Confidence`, `LookupInfo`, `SeverityOf`;
  - `Diagnose`, from a label and its index to the record.
- `class_labels.dfy` (module `ClassLabels`): every one of the 38 labels holds exactly one separator, so `split('__')` yields exactly two parts and the `[1]` index never raises.
- `diagnosis_facts.dfy` (module `DiagnosisFacts`):
  - every class index is diagnosed successfully;
  - the exact record for a label made of a plant and underscore-joined words;
  - such a label can be rebuilt from its record.
- `severity_facts.dfy` (module `SeverityFacts`): when the severity test does and does not find "blight".
- `joined_words.dfy` and `label_words.dfy` (modules `JoinedWords`, `LabelWords`): facts about each distinct list of disease words in the labels:
  - they hold no underscore and no space;
  - how they read joined by spaces;
  - whether the advice table has an entry for them;
  - for the names without "blight", that their severity is `Medium`.
- `class_results.dfy` (module `ClassResults`):
  - for each of the 38 indices, the plant, disease name, severity and advice source, and that the label is rebuilt from them;
  - `EveryClassResult`: for every index, severity is `High` exactly at the six blight labels, the advice comes from the table exactly at the nine listed labels, and the label is the plant, "__" and the disease name with underscores for spaces.
- `pipeline.dfy` (module `Pipeline`): `ModelPrediction`, the whole function, from the pipeline's outcome to the record.

## Model

| member | source | states |
|---|---|---|
| DiseaseDetection.ResultIndex | server/disease_detection.py:29 | the index drawn from the pipeline's integer is a valid position in the class table and is congruent to that integer modulo 38 (Python's `%` with a positive divisor) |
| DiseaseDetection.Confidence | server/disease_detection.py:85 | the confidence always lies in 85..99 and is congruent to 85 + index modulo 15 |
| DiseaseDetection.LookupInfo | server/disease_detection.py:79-83 | a disease with its own entry gets that entry verbatim; any other gets the description "<disease> affecting <plant>" and the two fixed generic advice texts |
| DiseaseDetection.SeverityOf | server/disease_detection.py:95 | severity is `High` exactly when "blight" occurs somewhere in the lower-cased disease name, otherwise `Medium` |
| DiseaseDetection.Diagnose | server/disease_detection.py:45-98 | succeeds exactly when splitting the label yields at least two parts; otherwise fails with the `IndexError` message. On success: the plant is the first part, holds no separator, and the label starts with plant + "__"; the disease is the second part with every `_` turned into a space, so it holds no `_`; confidence is the index's `Confidence`, in 85..99; severity is `High` iff "blight" occurs; description, prevention and treatment are the lookup's result |
| Pipeline.ModelPrediction | server/disease_detection.py:8-104 | the result is a success exactly when the decoding steps succeeded; a failure carries "Disease detection failed: " followed by the exception's message; for an integer `h` with `i = h % 38`, the confidence is `85 + i % 15`, the label at `i` is plant + "__" + the disease name with its spaces turned back into `_` (the plant holds no "__", the name no `_`), the severity is `High` exactly at the six blight indices, the advice comes from the table exactly at the nine listed indices, and description, prevention and treatment are the lookup's result |
| DiagnosisFacts.DiagnoseSucceeds | server/disease_detection.py:45-47 | for every index of the table, indexing the label and taking the second split part never raises, so the diagnosis succeeds |
| DiagnosisFacts.DiagnoseLabel | server/disease_detection.py:46-95 | a label splitting into a plant and underscore-joined words is diagnosed as exactly that plant, the words joined by spaces, the index's confidence, the advice for that name and the severity of that name |
| DiagnosisFacts.LabelFromDiagnosis | server/disease_detection.py:46-47 | a label splitting into a plant and words without spaces joined by `_` equals the plant, "__" and the shown disease name with its spaces turned back into `_`: the record determines the label |
| ClassLabels.SplitLabel | server/disease_detection.py:46-47 | a plant without `_`, then "__", then non-empty underscore-free words joined by single `_` splits into exactly the plant and the joined words |
| ClassLabels.EveryLabelSplitsInTwo | server/disease_detection.py:31-47 | every one of the 38 labels splits on "__" into exactly two parts |
| SeverityFacts.NoBlightWithout | server/disease_detection.py:95 | a name none of whose characters lower-cases to some letter of "blight" has severity `Medium` |
| SeverityFacts.NoBlightInWords | server/disease_detection.py:95 | the same for words joined by spaces |
| SeverityFacts.BlightLast | server/disease_detection.py:95 | words whose last one lower-cases to "blight" have severity `High` once joined by spaces, with the occurrence given |
| ClassResults.EveryClassResult | server/disease_detection.py:31-98 | for every class index the diagnosis succeeds; its severity is `High` exactly at indices 9, 13, 20, 21, 29 and 30; its advice comes from the table exactly at indices 0, 1, 5, 11, 20, 21, 25, 29 and 30; the label equals plant + "__" + the disease name with its spaces turned back into `_` |
| ClassResults.Result0 | server/disease_detection.py:32 | index 0 (`Apple__Apple_scab`): plant "Apple", disease "Apple scab", severity Medium, its own table advice; the label is rebuilt from plant and disease |
| ClassResults.Result1 | server/disease_detection.py:32 | index 1 (`Apple__Black_rot`): plant "Apple", disease "Black rot", severity Medium, its own table advice; the label is rebuilt from plant and disease |
| ClassResults.Result2 | server/disease_detection.py:32 | index 2 (`Apple__Cedar_apple_rust`): plant "Apple", disease "Cedar apple rust", severity Medium, the generic advice; the label is rebuilt from plant and disease |
| ClassResults.Result3 | server/disease_detection.py:32 | index 3 (`Apple__healthy`): plant "Apple", disease "healthy", severity Medium, the generic advice; the label is rebuilt from plant and disease |
| ClassResults.Result4 | server/disease_detection.py:33 | index 4 (`Blueberry__healthy`): plant "Blueberry", disease "healthy", severity Medium, the generic advice; the label is rebuilt from plant and disease |
| ClassResults.Result5 | server/disease_detection.py:33 | index 5 (`Cherry__Powdery_mildew`): plant "Cherry", disease "Powdery mildew", severity Medium, its own table advice; the label is rebuilt from plant and disease |
| ClassResults.Result6 | server/disease_detection.py:33 | index 6 (`Cherry__healthy`): plant "Cherry", disease "healthy", severity Medium, the generic advice; the label is rebuilt from plant and disease |
| ClassResults.Result7 | server/disease_detection.py:34 | index 7 (`Corn__Cercospora_leaf_spot`): plant "Corn", disease "Cercospora leaf spot", severity Medium, the generic advice; the label is rebuilt from plant and disease |
| ClassResults.Result8 | server/disease_detection.py:34 | index 8 (`Corn__Common_rust`): plant "Corn", disease "Common rust", severity Medium, the generic advice; the label is rebuilt from plant and disease |
| ClassResults.Result9 | server/disease_detection.py:34 | index 9 (`Corn__Northern_Leaf_Blight`): plant "Corn", disease "Northern Leaf Blight", severity High, the generic advice; the label is rebuilt from plant and disease |
| ClassResults.Result10 | server/disease_detection.py:35 | index 10 (`Corn__healthy`): plant "Corn", disease "healthy", severity Medium, the generic advice; the label is rebuilt from plant and disease |
| ClassResults.Result11 | server/disease_detection.py:35 | index 11 (`Grape__Black_rot`): plant "Grape", disease "Black rot", severity Medium, its own table advice; the label is rebuilt from plant and disease |
| ClassResults.Result12 | server/disease_detection.py:35 | index 12 (`Grape__Esca`): plant "Grape", disease "Esca", severity Medium, the generic advice; the label is rebuilt from plant and disease |
| ClassResults.Result13 | server/disease_detection.py:35 | index 13 (`Grape__Leaf_blight`): plant "Grape", disease "Leaf blight", severity High, the generic advice; the label is rebuilt from plant and disease |
| ClassResults.Result14 | server/disease_detection.py:36 | index 14 (`Grape__healthy`): plant "Grape", disease "healthy", severity Medium, the generic advice; the label is rebuilt from plant and disease |
| ClassResults.Result15 | server/disease_detection.py:36 | index 15 (`Orange__Huanglongbing`): plant "Orange", disease "Huanglongbing", severity Medium, the generic advice; the label is rebuilt from plant and disease |
| ClassResults.Result16 | server/disease_detection.py:36 | index 16 (`Peach__Bacterial_spot`): plant "Peach", disease "Bacterial spot", severity Medium, the generic advice; the label is rebuilt from plant and disease |
| ClassResults.Result17 | server/disease_detection.py:36 | index 17 (`Peach__healthy`): plant "Peach", disease "healthy", severity Medium, the generic advice; the label is rebuilt from plant and disease |
| ClassResults.Result18 | server/disease_detection.py:37 | index 18 (`Pepper__Bacterial_spot`): plant "Pepper", disease "Bacterial spot", severity Medium, the generic advice; the label is rebuilt from plant and disease |
| ClassResults.Result19 | server/disease_detection.py:37 | index 19 (`Pepper__healthy`): plant "Pepper", disease "healthy", severity Medium, the generic advice; the label is rebuilt from plant and disease |
| ClassResults.Result20 | server/disease_detection.py:37 | index 20 (`Potato__Early_blight`): plant "Potato", disease "Early blight", severity High, its own table advice; the label is rebuilt from plant and disease |
| ClassResults.Result21 | server/disease_detection.py:37 | index 21 (`Potato__Late_blight`): plant "Potato", disease "Late blight", severity High, its own table advice; the label is rebuilt from plant and disease |
| ClassResults.Result22 | server/disease_detection.py:38 | index 22 (`Potato__healthy`): plant "Potato", disease "healthy", severity Medium, the generic advice; the label is rebuilt from plant and disease |
| ClassResults.Result23 | server/disease_detection.py:38 | index 23 (`Raspberry__healthy`): plant "Raspberry", disease "healthy", severity Medium, the generic advice; the label is rebuilt from plant and disease |
| ClassResults.Result24 | server/disease_detection.py:38 | index 24 (`Soybean__healthy`): plant "Soybean", disease "healthy", severity Medium, the generic advice; the label is rebuilt from plant and disease |
| ClassResults.Result25 | server/disease_detection.py:38 | index 25 (`Squash__Powdery_mildew`): plant "Squash", disease "Powdery mildew", severity Medium, its own table advice; the label is rebuilt from plant and disease |
| ClassResults.Result26 | server/disease_detection.py:39 | index 26 (`Strawberry__Leaf_scorch`): plant "Strawberry", disease "Leaf scorch", severity Medium, the generic advice; the label is rebuilt from plant and disease |
| ClassResults.Result27 | server/disease_detection.py:39 | index 27 (`Strawberry__healthy`): plant "Strawberry", disease "healthy", severity Medium, the generic advice; the label is rebuilt from plant and disease |
| ClassResults.Result28 | server/disease_detection.py:39 | index 28 (`Tomato__Bacterial_spot`): plant "Tomato", disease "Bacterial spot", severity Medium, the generic advice; the label is rebuilt from plant and disease |
| ClassResults.Result29 | server/disease_detection.py:40 | index 29 (`Tomato__Early_blight`): plant "Tomato", disease "Early blight", severity High, its own table advice; the label is rebuilt from plant and disease |
| ClassResults.Result30 | server/disease_detection.py:40 | index 30 (`Tomato__Late_blight`): plant "Tomato", disease "Late blight", severity High, its own table advice; the label is rebuilt from plant and disease |
| ClassResults.Result31 | server/disease_detection.py:40 | index 31 (`Tomato__Leaf_Mold`): plant "Tomato", disease "Leaf Mold", severity Medium, the generic advice; the label is rebuilt from plant and disease |
| ClassResults.Result32 | server/disease_detection.py:41 | index 32 (`Tomato__Septoria_leaf_spot`): plant "Tomato", disease "Septoria leaf spot", severity Medium, the generic advice; the label is rebuilt from plant and disease |
| ClassResults.Result33 | server/disease_detection.py:41 | index 33 (`Tomato__Spider_mites`): plant "Tomato", disease "Spider mites", severity Medium, the generic advice; the label is rebuilt from plant and disease |
| ClassResults.Result34 | server/disease_detection.py:41 | index 34 (`Tomato__Target_Spot`): plant "Tomato", disease "Target Spot", severity Medium, the generic advice; the label is rebuilt from plant and disease |
| ClassResults.Result35 | server/disease_detection.py:42 | index 35 (`Tomato__Yellow_Leaf_Curl_Virus`): plant "Tomato", disease "Yellow Leaf Curl Virus", severity Medium, the generic advice; the label is rebuilt from plant and disease |
| ClassResults.Result36 | server/disease_detection.py:42 | index 36 (`Tomato__Mosaic_virus`): plant "Tomato", disease "Mosaic virus", severity Medium, the generic advice; the label is rebuilt from plant and disease |
| ClassResults.Result37 | server/disease_detection.py:42 | index 37 (`Tomato__healthy`): plant "Tomato", disease "healthy", severity Medium, the generic advice; the label is rebuilt from plant and disease |
| PyStr.FindFrom | server/disease_detection.py:95 | the search returns the first occurrence at or after the start position, or none when there is no such occurrence |
| PyStr.ContainsIff | server/disease_detection.py:95 | the substring test `pat in s` holds exactly when `pat` occurs at some position of `s` |
| PyStr.Split | server/disease_detection.py:46-47 | `split(sep)` yields at least one part; joining the parts with `sep` gives back the string; no part contains `sep`; there is a single part exactly when `sep` does not occur, and otherwise the first part ends where the leftmost occurrence of `sep` starts; every cut is leftmost, since no part but the last, followed by all but the last character of `sep`, contains `sep` |
| PyStr.LeftmostCut | server/disease_detection.py:46-47 | the text before the first occurrence of `sep`, extended by all but the last character of `sep`, does not contain `sep`: no earlier occurrence starts there, not even one reaching into the separator |
| PyStr.SplitInTwo | server/disease_detection.py:46-47 | `a + sep + b`, where `a` holds no first character of `sep` and `b` does not contain `sep`, splits into exactly `[a, b]` |
| PyStr.Replace | server/disease_detection.py:47 | `replace` keeps the length and changes exactly the occurrences of the replaced character, position by position |
| PyStr.ReplaceRemoves | server/disease_detection.py:47 | after replacing a character by a different one, none of it remains |
| PyStr.ReplaceJoin | server/disease_detection.py:47 | replacing the joining character of words that do not contain it gives the words joined by the replacement |
| PyStr.LowerChar | server/disease_detection.py:95 | lower-casing a character leaves no capital, keeps non-capitals, and maps a capital to its small letter |
| PyStr.Lower | server/disease_detection.py:95 | `lower()` keeps the length and lower-cases each character in place |

## Left out

- Decoding the base64 image, opening, resizing and converting it with PIL, and the numpy normalisation (lines 11-20) are library calls with no visible semantics. Their outcome enters `ModelPrediction` as a `Result<int>`: an integer, or the message of the exception they raised.
- The integer comes from `hash(str(input_arr.mean()))` (line 29). Python's string hash is salted per process and the mean is floating point, so the integer is an unconstrained input.
- The commented-out TensorFlow model (lines 24-26) is not executed code.
- The `__main__` block (lines 106-112) reads `sys.argv` and prints JSON: I/O, not modelled.
- The result dictionary's `success` key is the choice between the `Success` and `Failure` constructors; JSON field names and serialisation are not modelled.
- PyStr.Lower: models ASCII lower-casing only, because every string this code lower-cases is ASCII. Python's full Unicode case mapping is not modelled.
- The `IndexError` raised when a label has no separator is kept in `Diagnose` even though `EveryLabelSplitsInTwo` shows it cannot happen for this table.
- The web front end and the Express backend are not part of this model.

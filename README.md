# Fish disease prediction service: the `/predict` pipeline in Dafny

This project models the per-request inference pipeline of a FastAPI service
that classifies photographs of fish by disease. For one upload, `predict`
does the following:

1. It checks the declared file name. The lower-cased name must end in `.png`, `.jpg` or `.jpeg`. Otherwise the answer is 415.
2. It decodes the bytes and resizes the image to 224 x 224. A decoder failure becomes 400 `Invalid image file: <cause>`.
3. It divides every 8-bit intensity by 255 and drops the fourth channel when the last axis has four entries.
4. It adds a batch axis of size one and hands the batch to the classifier.
5. It reads the scores back. The class is the catalog entry at the first index of a maximal score, and the confidence is that score. `api/main.py` also looks up a remedy, with the fallback "No solution available.".
6. It maps failures to statuses. HTTPExceptions (415, 400) pass through unchanged. Every other exception becomes 500 `Prediction error: <message>`.

The two service files `api/main.py` and `api/main_1.py` are one model,
parameterised by `Inference.Variant`. A variant is a label catalog plus an
optional remedy table. `api/main_1.py` orders its labels differently and
answers without a `solution` field. Its `read_file_as_image`
(`api/main_1.py:66-76`) is the same code as that of `api/main.py`, so
`Imaging.ReadFileAsImage` and the lemmas about it hold for both files.

Two collaborators become function parameters:

- The image decoder, `Imaging.Decoder`, covers PIL's open and resize and the conversion to a NumPy array. It either fails with a message or yields a pixel array.
- The classifier, `Inference.Classifier`, maps a batch to a flattened score vector or fails with a message.

Every lemma about the handler holds for every decoder and every classifier.
Intensities are naturals 0..255. Scaled values and scores are exact reals.
All members are pure functions, and the decoder and the classifier are
modelled as functions of their input, so in the model the same upload always
gets the same outcome. That determinism comes from the abstraction; see
"Left out".

Two consequences of the code are worth stating:

- The code cuts only a last axis of length 4. A single-band image stays two-dimensional, and a two-band image keeps two bands (`Imaging.OtherShapesOnlyScaled`).
- The code does not check scores for NaN; see "Left out".

The tables are constants: `Catalog.MainClassNames` and `Catalog.MainSolutions`
are `CLASS_NAMES` and `SOLUTIONS` of `api/main.py:42-60`, and
`Catalog.Main1ClassNames` is `CLASS_NAMES` of `api/main_1.py:42-50`. The two
service files are the constants `Inference.MainApp` and `Inference.Main1App`
of the datatype `Inference.Variant`. The lemmas about these constants have
rows below.

Modules: `Wrappers` (Option, Result), `Http` (exceptions, JSON response,
outcome), `FileNames` (the extension gate), `Imaging` (preprocessing and
batching), `Scores` (argmax and max), `Catalog` (labels and remedies),
`Inference` (the handler).

## Model

| member | source | states |
|---|---|---|
| `FileNames.LowerChar` | api/main.py:89 | `str.lower` on one character, for the ASCII letters A..Z: they move to a..z, every other character is kept, and no upper-case ASCII letter remains |
| `FileNames.EndsWithIffPointwise` | api/main.py:89 | `str.endswith`: true iff the suffix fits and matches the last characters position by position |
| `FileNames.ExtensionAllowed` | api/main.py:89 | the gate `filename.lower().endswith(('.png', '.jpg', '.jpeg'))`; an accepted name has at least four characters and ends in `g`/`G` |
| `FileNames.Lower` | api/main.py:89 | lower-casing keeps the length and maps each character through `LowerChar` |
| `FileNames.ExtensionAllowedIffSplit` | api/main.py:89 | a name passes the gate iff it splits into a stem and an extension whose lower-cased form is `.png`, `.jpg` or `.jpeg` |
| `FileNames.ExtensionCaseInsensitive` | api/main.py:89 | names that agree up to case get the same decision |
| `FileNames.ExtensionDependsOnTail` | api/main.py:89 | only the last five characters of a name decide the gate |
| `FileNames.UpperCaseExample` | api/main.py:89 | `FISH.JPG` and `fish.jpg` both pass |
| `FileNames.MixedCaseJpegExample` | api/main.py:89 | `scan.JpEg` passes |
| `FileNames.RejectedExamples` | api/main.py:89 | `fish.gif` and a bare `png` are rejected |
| `FileNames.DoubleExtensionExample` | api/main.py:89 | `fish.jpg.txt` is rejected: only the final extension counts |
| `Imaging.Scale` | api/main.py:78 | every intensity v becomes v/255, the shape is kept, and every value lies in [0, 1] |
| `Imaging.KeepFirst3` | api/main.py:80 | `image[..., :3]` keeps exactly the first three entries of the last axis of every row or pixel; the other extents are kept |
| `Imaging.DropAlpha` | api/main.py:79-80 | a last axis of length 4 is cut to its first 3 entries; any other array is returned unchanged |
| `Imaging.Preprocess` | api/main.py:78-80 | the result is well formed, lies in [0, 1], and holds the input's values divided by 255 at the same positions; the shape is kept except that a last axis of 4 becomes 3 |
| `Imaging.ReadFileAsImage` | api/main.py:75-84 | it fails iff the decoder fails, and then with HTTPException 400 "Invalid image file: " + cause; otherwise it yields exactly `Preprocess` of the decoded image: well formed, in [0, 1], a last axis of 4 cut to 3 and any other shape kept |
| `Imaging.ExpandDims` | api/main.py:93 | the batch has shape [1] + image shape and its sole element is the image |
| `Imaging.PreprocessRgbShape` | api/main.py:77-80 | a 224 x 224 image with 3 or 4 bands becomes a 224 x 224 x 3 array in [0, 1] |
| `Imaging.AlphaDroppedLikeFlattened` | api/main.py:78-80 | an RGBA image is preprocessed exactly like the same image with its alpha channel removed first |
| `Imaging.OtherShapesOnlyScaled` | api/main.py:79-81 | with a last axis other than 4 no channel conversion happens, only scaling |
| `Scores.ArgMax` | api/main.py:96 | the index holds a maximal score and every earlier score is strictly smaller (first index wins ties) |
| `Scores.Max` | api/main.py:97 | the result is one of the scores and no score exceeds it |
| `Scores.MaxAtArgMax` | api/main.py:96-97 | the confidence is the score at the predicted index |
| `Scores.ArgMaxUnique` | api/main.py:96 | the two properties of the argmax determine the index uniquely |
| `Catalog.SolutionFor` | api/main.py:98 | `SOLUTIONS.get`: a listed label gets its remedy, any other gets "No solution available." |
| `Catalog.SolutionsCoverMainCatalog` | api/main.py:42-60 | the 7 labels are distinct; the remedy table's keys are exactly those labels, so no predicted label falls back |
| `Catalog.Main1ReordersMain` | api/main_1.py:42-50 | the second catalog has 7 distinct labels: the first one's, with index 3 moved to the end |
| `Catalog.Main1SameLabelsOtherOrder` | api/main_1.py:42-50 | both catalogs hold the same labels and agree at indices 0..2 |
| `Catalog.Main1DiffersFromIndex3` | api/main_1.py:42-50 | at each index 3..6 the two catalogs name different labels |
| `Inference.SuccessResponse` | api/main.py:102-107 | the body has exactly the keys class, confidence and solution (class and confidence for a variant without remedies), and the header is `Cache-Control: no-store` |
| `Inference.Attempt` | api/main.py:88-107 | the only HTTPExceptions the `try` body raises are 415 and 400 |
| `Inference.HandleException` | api/main.py:109-114 | an HTTPException keeps its status and detail; any other exception becomes 500 "Prediction error: " + message |
| `Inference.Predict` | api/main.py:86-114 | every failure the client sees has status 415, 400 or 500 |
| `Inference.UnsupportedRejectedBeforeDecoding` | api/main.py:89-90 | a name failing the gate gets 415 with the fixed detail, whatever the bytes, decoder and classifier |
| `Inference.MissingFilenameIs500` | api/main.py:89-114 | an upload whose `filename` is None fails at `.lower()` and gets 500; over HTTP FastAPI rejects a part without a file name before the handler runs, so this path exists only when the handler itself gets `filename=None` |
| `Inference.InvalidImageIs400` | api/main.py:82-84 | a decoder failure behind an accepted name reaches the client as 400 "Invalid image file: " + cause |
| `Inference.ClassifierFailureIs500` | api/main.py:95-114 | a classifier failure becomes 500 "Prediction error: " + its message |
| `Inference.IndexPastCatalogIs500` | api/main.py:96 | an argmax past the end of the catalog raises IndexError, which becomes 500 |
| `Inference.RespondsIffPipelineSucceeds` | api/main.py:92-107 | a response comes back iff every stage succeeds; the class is the catalog entry at the first maximal index, the confidence equals that score and bounds all scores, and the header is no-store |
| `Inference.StatusTaxonomy` | api/main.py:109-114 | 415 iff the gate rejects; 400 iff the name passes and decoding fails; 500 iff the name is missing or a later stage fails |
| `Inference.VariantsFailAlike` | api/main_1.py:83-115 | the two variants fail on the same uploads with the same status and detail, so the gate, the 400 mapping and the 500 mapping hold for api/main_1.py too |
| `Inference.Main1ResponseHasNoSolution` | api/main_1.py:95-107 | api/main_1.py answers with exactly the keys class and confidence: its own catalog's entry at the first maximal index, and the maximum score |
| `Inference.HealthyFishExample` | api/main.py:95-107 | scores with 0.91 at index 4 give "Healthy Fish", 0.91 and "No action needed. Fish is healthy." |
| `Inference.HealthyScoresInMain1` | api/main_1.py:96-106 | the same scores give "Parasitic diseases" and 0.91 with no solution under the second catalog |
| `Inference.TieGoesToFirstIndex` | api/main.py:96 | equal top scores at indices 0 and 6 name index 0 in both variants |

## Left out

- Image decoding and resampling (PIL's `Image.open(...).resize((224, 224))` and `np.array`) are an abstract decoder. The model does not see the resampling algorithm. It does not see modes whose values are not 8-bit intensities (bilevel, 16-bit, float).
- Model loading at startup (`api/main.py:33-39`) is not modelled: it is process start-up, not part of a request. Inference itself is an abstract classifier.
- Inference.SuccessResponse: the confidence is the exact maximum score, not `round(float(confidence), 2)`. Float rounding and formatting are left out.
- Floating point is left out. Scores are exact reals, so NaN and its effect on `argmax`/`max` cannot arise.
- FileNames.LowerChar: folds only the ASCII letters A..Z; Python's `str.lower` also folds non-ASCII capitals such as 'Ä' and 'Σ'.
- FileNames.Lower: folds only the ASCII letters A..Z. Python's `str.lower` also folds other letters, some of them into several characters.
- The decoder's error messages are a fixed function of the bytes. PIL's real messages for unidentifiable bytes can include the `repr` of a fresh `BytesIO` object, memory address included, so the 400 detail can differ between runs.
- Reading the upload (`await file.read()`) is assumed to succeed. The bytes are part of the input.
- Service plumbing is left out because it is I/O with no contract: routing, CORS, `/ping`, `uvicorn.run`, the stdout re-encoding, `safe_print` and logging.
- Concurrency and sharing of the classifier between requests are left out. The pipeline mutates no shared state.
- `api/test_model.py` (a diagnostic script) and `frontend/src/home.js` (the web client) are not part of this model.

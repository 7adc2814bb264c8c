# Bin classifier core, in Dafny

A model of the deterministic logic of `utils.py` in the bin-classifier
application, which classifies beauty-product components into recycling
disposal categories by asking a large-language-model endpoint:

- `classify_product` (module `Classifier`, `classifier.dfy`): the two chat
  messages sent to the completion endpoint (system prompt first, then
  "Analyze this beauty product: " + description, with the image as a
  `data:image/jpeg;base64,` URI when `image_data` is truthy); the order of the
  guards (missing client, then empty description); the check that the reply
  is a dict with a `components` key; the renaming of each component's keys with
  defaults; and how every failure ends as one of three errors: the bare
  "OpenAI client is not initialized" ValueError, a "Validation error: …"
  exception or a "Failed to classify product: …" exception.
- `generate_csv` (module `Exporter`, `exporter.dfy`): the fixed five-column
  header and one row per stored component, given the newest stored record.

The endpoint is an input: `Reply` says whether the call, reading the reply's
content or decoding it raised something other than a JSON decode error (a
`None` content, say), whether the text did not decode as JSON, or what JSON
value it decoded to. The out-parameter `sent`
of `ClassifyProduct` is the request the endpoint received, `None` when it was
never called. `PyJson.Json` stands for the values `json.loads` returns
(`None`, `bool`, `int`, `float`, `str`, `list`, `dict`), and the Python
exceptions raised while walking them are modelled by their message text
(`'str' object has no attribute 'get'`, `'NoneType' object is not iterable`).

Points where the code does something a reader might not expect; the model follows the code:

- A component with missing keys is not dropped; each missing key gets its
  default (`'Unknown'`, `''`, `'TRASH'`, `''`).
- A `disposal_category` outside PACT, CURBSIDE RECYCLING and TRASH is copied
  unchanged; only an absent one becomes `'TRASH'`.
- A reply without `components` is rejected at utils.py:112 inside the inner
  `try`, so it is caught at utils.py:117 and wrapped twice: "Validation error:
  Failed to get response from OpenAI: Invalid response format: …".
- A `components` value that is not a list does not always fail: an empty
  dict and an empty string iterate zero times and give `[]`. A non-empty dict
  or string yields `str` elements and fails on `.get`; `null`, booleans and
  numbers are not iterable. A non-dict element in a list raises an
  AttributeError, which the per-component `except (TypeError, ValueError)` does
  not catch, so the whole call fails with "Failed to classify product: …".

## Model

| member | source | states |
|---|---|---|
| `Classifier.BuildMessages` | utils.py:73-85 | two messages, the system prompt first and the user message second; the user content is a two-part list exactly when `image_data` is truthy |
| `Classifier.RequestRoundTrip` | utils.py:73-85 | the request carries the description after the fixed prefix and a truthy image after the data-URI prefix, and both read back unchanged; a falsy image is not sent |
| `Classifier.NormalizeComponent` | utils.py:125-130 | each of the four output fields is the reply's value under the renamed key when present, otherwise 'Unknown', '', 'TRASH' or ''; a present disposal category is not validated |
| `Classifier.NormalizedItemsSucceedsIff` | utils.py:123-133 | the component loop over a list succeeds if and only if every element is a dict |
| `Classifier.NormalizedItemsPreservesOrder` | utils.py:122-135 | on success the result has one record per list element, in the same order, each the normalisation of its element; nothing is skipped |
| `Classifier.NormalizedItemsFailsAtFirstNonObject` | utils.py:123-133 | a list whose first non-dict is at position j fails with the AttributeError message naming that element's type |
| `Classifier.NormalizedSucceedsIff` | utils.py:123-133 | a `components` value yields a list exactly when it is a list of dicts, an empty dict or an empty string; null, numbers, booleans, non-empty strings and non-empty dicts raise |
| `Classifier.NormalizeComponents` | utils.py:122-135 | the append loop computes the normalised list, or the message of the exception that escapes it |
| `Classifier.ClassifyProduct` | utils.py:73-140 | the endpoint is called with the built request exactly when a client is present and the description non-empty; a missing client gives the bare error whatever the description; empty description, failed call, non-JSON text and a reply without `components` give "Validation error" with the source's detail texts, and only those inputs do; a well-shaped reply gives the normalised list or, when that raises, "Failed to classify product"; only the missing-client error is a bare ValueError |
| `Exporter.RowOf` | utils.py:165-171 | a row carries the record's description as product name and each column's stored value, or '' when the key is missing |
| `Exporter.RowsArePrefixOfObjects` | utils.py:164-174 | the rows are those of the longest prefix of dicts, in order; the element after them, if any, is not a dict, so rows already written are kept when a later one fails |
| `Exporter.AllObjectsGiveAllRows` | utils.py:163-172 | a stored list of N dicts gives exactly N rows |
| `Exporter.ExportOfStoredClassification` | utils.py:162-172 | exporting a stored classification result gives one row per component, in order, field for field, each named after the stored description |
| `Exporter.GenerateCsv` | utils.py:147-174 | the header is the five fixed column names; the rows are those of the stored list, and none when there is no record, the stored text does not decode, or it is not a list |

## Left out

- The completion call itself (utils.py:97-105) is an input (`Reply`); model name, token budget and temperature are not represented.
- `json.loads` and `json.dumps` are not modelled as text functions: a reply is given already decoded or as a decode failure, and a stored result as what `json.loads` makes of it. `ExportOfStoredClassification` takes `json.loads(json.dumps(x)) == x` for the stored component list.
- The system prompt text (utils.py:10-71) is the constant constructor `SystemPrompt`; its category lists are instructions to the model and no code enforces them.
- File creation, the timestamped file name, CSV quoting and encoding (utils.py:143-146, 154) and the value-to-text conversion of the CSV writer: the output is the header and the rows.
- A stored document missing `classification_result`, or with a non-string one, raises KeyError or TypeError from `generate_csv`, since utils.py:173 does not catch them. One missing `product_description` raises KeyError only once the decoded list has an element (utils.py:166). An empty document is falsy at utils.py:160 and gives the header only. The store always writes both fields as strings, so `StoredRecord` has them as typed fields and none of these cases is modelled.
- models.py (Elasticsearch connection, index creation, `save`, `get_latest`) is not part of this model: `GenerateCsv` takes the result of `get_latest` as an `Option` input.
- app.py (HTTP routing, upload handling, base64 encoding, temp-file cleanup) and generate_requirements.py are not part of this model.
- Logging through `print` is not modelled.

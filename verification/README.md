# Session state of the test-search dashboards

This project models, in Dafny, the two pieces of the test-search dashboards
whose behaviour lives in Streamlit's per-user session store rather than in the
page layout.

- **The dynamic checkbox page** (`example.py`, module `CountrySelect`). A
  candidate list of country codes is seeded into the session under
  `dummy_data`. Free-text input grows it by append-if-absent. Every code owns a
  boolean flag under the key `dynamic_checkbox_` + code. The selection is
  rebuilt on every run by scanning all session keys for that prefix, keeping
  the keys whose value is true and stripping the prefix with
  `str.replace`. The session store is modelled as a dictionary value `Dict`
  with an order of its keys; the page is a class `CountryPage`
  whose methods reassign that dictionary. The list that `checkbox_container`
  appends to is the very object stored under `dummy_data`, since line 5
  stores it and line 7 reads it back. The model therefore appends to the
  stored entry.
- **The entity-extraction page** (`sample.py`, module `EntitySearch`). A class
  `SearchPage` has one field per session key: `df`, `keywords`, `location`,
  `language`, `extract_entities`, the form-submission marker
  `FormSubmitter:qf-Extract Entities` and the grid state `grid1`. Methods model
  the Search button handler and the results form. Functions model the blocks
  that later read the session: entity extraction, CSV download and the sidebar
  warning. `get_live_search_results` and `get_entities` live in a utility
  module that is not part of this model. They are function-valued constants
  fixed when the session is created.

`PyStr` holds the Python string operations the selection relies on,
`startswith` and `replace(p, '')`, together with `Occurs`, substring
occurrence, which the program never calls: it only states the model's
condition that a code is free of the prefix. `Wrappers` holds `Option`,
which stands for a session key that may be unset.

One safeguard one might expect is absent from the code, and the model follows
the code: a code containing `dynamic_checkbox_` is not rejected, and `replace`
removes every occurrence of the prefix, so such a code is reported without it.

## Model

| member | source | states |
|---|---|---|
| PyStr.StartsWith | example.py:22 | `key.startswith(p)` holds exactly when `p` is no longer than the key and equals its first `len(p)` characters |
| CountrySelect.Truthy | example.py:22 | Python truthiness of a stored value: every value except a false flag and an empty list is truthy |
| PyStr.RemoveAll | example.py:21 | `replace(p, '')` never lengthens the string and leaves a string without an occurrence of `p` unchanged |
| PyStr.RemoveAllLeading | example.py:21 | a leading occurrence of the pattern is dropped and removal continues on the rest |
| CountrySelect.Dict.Set | example.py:5 | assigning a key keeps the dictionary well formed, stores the value, and keeps every earlier key in its place |
| CountrySelect.Dict.SetDefault | example.py:17 | a checkbox registering its key writes the default only when the key is absent, as the last key and leaving every other key and value as it was; an existing value survives the rerun |
| CountrySelect.FlagKey | example.py:17 | a code's checkbox key carries the prefix followed by the code itself, and is never the seed key |
| CountrySelect.Strip | example.py:21 | stripping never lengthens a key, leaves a key without the prefix unchanged, and turns a prefixed key with a prefix-free remainder into that remainder |
| CountrySelect.Chosen | example.py:21-22 | the filter never picks the seed key and never picks a key holding false |
| CountrySelect.Selected | example.py:20-22 | get_selected_checkboxes holds the stripped code of every prefixed key holding true and nothing else, with no more entries than keys |
| CountrySelect.CountryPage.Selection | example.py:20-22 | the selection the page displays is exactly the stripped codes of its prefixed keys holding true |
| CountrySelect.SelectedFrom | example.py:20-22 | the selection has no more entries than there are session keys |
| CountrySelect.SelectedPerm | example.py:20-22 | whatever order the session keys are scanned in, the selection holds the same codes with the same multiplicities |
| CountrySelect.SelectedConcat | example.py:20-22 | under the model's key order, the selection follows that order: the selection of `a + b` is that of `a` followed by that of `b` |
| CountrySelect.SelectedAppend | example.py:20-22 | under the model's key order, a key added last adds its stripped code last, and only if it carries the prefix and holds a true value |
| CountrySelect.UnchosenIgnored | example.py:21-22 | a key without the prefix (such as `dummy_data`) or with a false flag contributes nothing, wherever it stands |
| CountrySelect.SelectedFrame | example.py:21-22 | the selection depends on the values only through which prefixed keys hold true |
| CountrySelect.SelectedComplete | example.py:21-22 | every prefixed key holding true contributes its stripped code |
| CountrySelect.SelectedSound | example.py:21-22 | every element of the selection is the stripped form of a prefixed key holding true |
| CountrySelect.FlagKeyInjective | example.py:17 | distinct codes get distinct flag keys |
| CountrySelect.FlagKeyRoundTrip | example.py:17-22 | stripping a code's flag key gives the code back when the code does not contain the prefix |
| CountrySelect.PrefixedCodeMisreported | example.py:21 | the code `dynamic_checkbox_X` is reported as `X`, because `replace` removes every occurrence |
| CountrySelect.StripClean | example.py:21 | a prefixed key whose remainder is prefix-free strips to that remainder and is the flag key of it |
| CountrySelect.ToggleOnSelects | example.py:17-22 | setting a prefix-free code's flag to true puts the code in the selection |
| CountrySelect.ToggleOffDeselects | example.py:17-22 | setting a prefix-free code's flag to false takes the code out of the selection |
| CountrySelect.Seeded | example.py:4-7 | after seeding the list is stored; a stored list is left untouched; otherwise only the initial list is added, placed last in the model's key order, and every other value stays |
| CountrySelect.SeedIdempotent | example.py:4-7 | seeding twice is seeding once |
| CountrySelect.SeedKeepsSelection | example.py:4-7 | seeding never changes the selection |
| CountrySelect.AppendIfAbsent | example.py:13-15 | a non-empty code not yet listed is appended at the end, the length grows by exactly one, earlier codes keep their positions, nothing else is added, and a list without duplicates stays without duplicates; an empty or listed code changes nothing |
| CountrySelect.AppendIdempotent | example.py:13-15 | submitting the same code a second time changes nothing |
| CountrySelect.AddCode | example.py:13-15 | the append step changes the stored list as AppendIfAbsent says, keeps the key order and changes no other key |
| CountrySelect.AddCodeKeepsSelection | example.py:13-15 | growing the list never changes the selection |
| CountrySelect.RegisterFlags | example.py:16-17 | after the checkbox loop every listed code has a flag key, earlier values are kept, every new key holds false and is the flag key of a listed code, and the earlier key order is a prefix of the new one |
| CountrySelect.RegisterCheckboxes | example.py:16-17 | the checkbox loop leaves the session exactly as RegisterFlags describes |
| CountrySelect.Container | example.py:13-17 | after checkbox_container the stored list is AppendIfAbsent of the old one and every listed code has its flag key |
| CountrySelect.RegisterKeepsSelection | example.py:16-17 | registering the checkboxes never changes the selection |
| CountrySelect.ContainerEffect | example.py:13-17 | append and registration together keep the store well formed, keep every other key's value and keep the selection |
| CountrySelect.CountryPage.Seed | example.py:4-7 | the session becomes the seeded session and the list read back is the stored one |
| CountrySelect.CountryPage.CheckboxContainer | example.py:10-17 | the session becomes Container of the old one: the stored list is AppendIfAbsent of the old list and stays free of duplicates, every code has its flag, every other key keeps its value and the selection is unchanged |
| CountrySelect.CountryPage.Toggle | example.py:17-22 | a user's tick writes the code's flag; for a prefix-free code, true selects it and false deselects it |
| CountrySelect.CountryPage.Rerun | example.py:25-27 | one run leaves the session as Container of the seeded session: it seeds, grows the list, gives every code a flag, keeps every other value, and displays the same selection as before the run |
| EntitySearch.SearchPage.SearchButton | sample.py:85-96 | an empty keyword warns, drops a stored table and resets extract_entities, and changes nothing when no table is stored; otherwise the fields are stored, extract_entities is reset and the table is the retrieval for the stored fields; the marker and grid state are untouched |
| EntitySearch.SearchPage.RenderResults | sample.py:97-118 | the form is shown exactly when a table is stored, and showing it sets extract_entities to true whether or not it was submitted |
| EntitySearch.SearchPage.Extraction | sample.py:134-141 | entities are fetched exactly when the API is DataForSeo, the marker is true and the grid holds selectedRows, on those rows; with the marker true and no selectedRows it asks for rows; after a search only a missing grid can raise |
| EntitySearch.SearchPage.DownloadAsWritten | sample.py:145-146 | the block as written raises exactly when the grid state is present and no table is stored |
| EntitySearch.SearchPage.Download | sample.py:145-159 | the corrected block never raises and offers the stored table exactly when the grid state and a table are present; that table is the retrieval for the stored fields |
| EntitySearch.SearchPage.SidebarWarning | sample.py:160-161 | the sidebar warning fires exactly when the side button was clicked and neither grid1 nor keywords is present, so never while a table is stored |
| EntitySearch.SearchPage.Rerun | sample.py:85-161 | one run with the corrected download block: the search step and the form step, then the gates on the resulting session; an empty-keyword search keeps the search fields, and when no table is left extract_entities is false after a dropped table and otherwise unchanged; a missing key in the extraction block ends the run there |
| EntitySearch.EmptySearchAfterResults | sample.py:145-146 | after results were shown with a grid state, an empty-keyword search makes the as-written download block raise for `df` |

## Left out

- Page layout and widgets are not modelled: headers, markdown, expanders, columns, Lottie, CSS, page config and `st.write`.
- The AgGrid options and the grid's own selection protocol are not modelled. Only whether the grid state holds `selectedRows` is kept.
- `get_live_search_results` and `get_entities` are modelled as fixed functions. Network errors are left out, and so is the fact that a repeated query may return different rows. The source does not handle these errors; one would end the run.
- EntitySearch.SearchPage.Valid: the clause tying a stored table to the stored search fields holds only because retrieval cannot fail in the model. Lines 92-95 store the new keywords, location and language before the call at line 96. If that call raised, the run would end with the new fields and the previous table, which then belongs to the previous search.
- EntitySearch.SearchPage.Download: the same applies to its clause that an offered table is the retrieval for the stored fields.
- CSV conversion (`to_csv().encode("utf-8")` under `st.cache`) is not modelled. The download outcome carries the table itself.
- The writes of the form marker and of `grid1` come from the front end. They are plain field writes that callers make; the scenario method makes them directly.
- Widget state is never removed from the session in the model: flags and the grid state persist once written.
- The session store promises no key order. The model fixes one, insertion order, in which a new key goes last and existing keys keep their relative order. SelectedConcat and SelectedAppend, the placement of the seed key in Seeded, and the sequence equalities of SeedKeepsSelection, AddCodeKeepsSelection, RegisterKeepsSelection, ContainerEffect and the `Selection() == old(Selection())` clauses of CountryPage.Seed, CountryPage.CheckboxContainer and CountryPage.Rerun all rely on existing keys keeping their order. SelectedComplete, SelectedSound and Selected hold in any order, and SelectedPerm shows that reordering the keys keeps the selection as a multiset.
- The text input, select boxes, buttons and sidebar choices are parameters of each run. Their own persistence across runs is not modelled.
- Python truthiness is modelled only for the two kinds of value this page stores: booleans and lists of codes.
- `extract_entities` is written but never read in the modelled code. The model only records its value.
- `search.py` and `form.py` are not part of this model.
- CountrySelect.CountryPage.CheckboxContainer: requires `dummy_data` to be stored, because the script always seeds it first (lines 4-7, 25).
- CountrySelect.CountryPage.Toggle: the false direction is stated only when no flag key belongs to a code that contains the prefix, because `replace` removes every occurrence.
- CountrySelect.ToggleOffDeselects: same restriction as Toggle, for the same reason.
- EntitySearch.SearchPage.Rerun: runs the corrected download block. On the input of the finding below, the model offers no download and goes on to the sidebar gate, while lines 145-146 as written raise a KeyError for `df` and end the run. DownloadAsWritten and EmptySearchAfterResults model that behaviour.
- CountrySelect.FlagKeyRoundTrip: stated only for codes that do not contain the prefix; PrefixedCodeMisreported shows what happens otherwise.

## Findings

| source | as written | input that shows it | evidently intended | confidence | as-written member | corrected member |
|---|---|---|---|---|---|---|
| sample.py:145-146 | The download block runs when `grid1` is in the session, then reads `df`. The empty-keyword branch at line 89 may have deleted `df` earlier in the same run, so the read raises a KeyError. | Search with a keyword, so the results grid appears and reports its state; then click Search with an empty keyword. | Offer the CSV only while a result table is stored. | medium, not executed | EntitySearch.SearchPage.DownloadAsWritten, EntitySearch.EmptySearchAfterResults | EntitySearch.SearchPage.Download |

# A-SOID workshop app: session state machine

A model of the control logic in the `main()` function of the A-SOID workshop
Streamlit app (`asoid/app.py`): how `st.session_state` is initialised, the
two-mode config form (Upload while no project configuration is loaded, Delete
while one is), how a failed project load degrades the navigation menu, and how
the selected menu option is mapped to a pipeline stage.

Modules, one per part of `main()`:

- `Values` (`values.dfy`): session-state values, the parsed configuration, the
  exceptions, and the `ConfigParser.read` / `section.get` behaviour the code
  relies on (a missing file is skipped silently; an absent option is `None`).
- `Session` (`session.dfy`): initialisation (`Initialized`), the form
  (`Prefill`, `Fires`, `Transition`, `FormStep`), the class `SessionStore`
  whose `entries` map is `st.session_state` and whose methods `Init`, `Submit`
  and `Delete` update it in place, and the guarded form of the Findings below.
- `StageDispatch` (`dispatch.dfy`): the stages, Python's substring test
  (`Contains`), the `if`/`elif` dispatch chain (`Dispatch`), a reference
  first-match search (`FirstMatch`) and the call made for each stage (`Invoke`).
- `MenuGating` (`menu.dfy`): the `try`/`except` load (`LoadSucceeds`), the two
  literal menus (`Menu`) and a catalogue of stages (`Registry`, `Visible`)
  against which the literal lists are checked.
- `App` (`app.dfy`): one whole run of `main()` (`Run`) and the user scenarios.

External parts are parameters: the readable config files are a map from path to
parsed `Config`; `load_data` is a `Loader`, a function from the two option
values to "returned" / "raised"; the option the `option_menu` widget reports is
a string. Each form click is one atomic transition; the `st.experimental_rerun()`
after it is the `Rerun` outcome of a run.

## Behaviour as coded

Behaviour the code has that a reader might not expect:

- The first value of `page` is `'Step 1'`, not the home stage; `page` is never read.
- Delete sets `page` to `None` rather than back to a default; the next run keeps
  it at `None`, because initialisation only fills absent keys.
- Upload does not check that the typed path is non-empty or exists: in Upload
  mode the box is created with the constant default path as its value, so it
  returns a string and the `is not None` test always passes.
- Dispatch still knows Refine Behaviors, Create New Dataset and Discover, which
  neither menu offers.
- After uploading a path that is not a readable config with a `[Project]`
  section, the next run raises rather than showing the reduced menu (see Findings).

## Model

| member | source | states |
|---|---|---|
| Values.ReadConfig | asoid/app.py:177-179 | `ConfigParser.read` of the typed path, a missing file giving a parser without sections; pinned down by MissingFileReducedMenu and UploadOfMissingFileLocksForm |
| Values.ProjectSection | asoid/app.py:196-197 | the `config["Project"]` subscript and the exception it raises; characterised by FormFaultIff and GatingIff |
| Values.Get | asoid/app.py:196-197 | `section.get(option)`: the option's value, or `None` when absent; pinned down by GatingIff (the loader receives these values) and FormFaultIff (the prefill shows `PROJECT_NAME` through it) |
| Session.Initialized | asoid/app.py:156-159 | both keys exist afterwards; existing entries keep their values; only an absent `page` becomes `'Step 1'` and only an absent `config` becomes `None`; no other key appears |
| Session.InitIdempotent | asoid/app.py:156-159 | initialising twice gives the same state as initialising once |
| Session.InitKeepsInitialised | asoid/app.py:156-159 | on a state that has both keys, initialisation changes nothing |
| Session.Prefill | asoid/app.py:167-170 | the path box's initial text, computed before either button and possibly raising; characterised by FormFaultIff (default path without a configuration, `PROJECT_NAME` otherwise, raising exactly when the `[Project]` section is unreachable) |
| Session.Fires | asoid/app.py:173-188 | which click takes effect: Upload only while `config` is `None`, Delete only while it is not; pinned down by SubmitGuarded, DeleteGuarded and IdleFormKeepsState |
| Session.Transition | asoid/app.py:173-188 | the state a form click leaves; pinned down by SubmitGuarded and DeleteGuarded |
| Session.FormStep | asoid/app.py:165-188 | one run of the config form, prefill first; characterised by SubmitGuarded, DeleteGuarded, IdleFormKeepsState and FormFaultIff |
| Session.SessionStore.Init | asoid/app.py:156-159 | the store's new entries are the initialised old entries |
| Session.SubmitGuarded | asoid/app.py:173-182 | Upload fires only when `config` is `None`; it stores the configuration read from the typed path, for any path, and changes no other key (so `page` is kept) |
| Session.DeleteGuarded | asoid/app.py:183-188 | Delete does nothing without a configuration; with one (and a rendered form) it sets `config` and `page` to `None` and changes no other key |
| Session.IdleFormKeepsState | asoid/app.py:173-188 | a click the current mode does not show leaves the state unchanged |
| Session.FormFaultIff | asoid/app.py:165-188 | the form raises if and only if a non-`None` configuration has no reachable `[Project]` section: computing the path box's prefill (the configuration's `PROJECT_NAME`) raises exactly then, and without a configuration the box shows the default path |
| Session.SessionStore.Submit | asoid/app.py:165-182 | the method's outcome and new entries are those of the form step with an Upload click; on an exception the entries are unchanged |
| Session.SessionStore.Delete | asoid/app.py:165-188 | the method's outcome and new entries are those of the form step with a Delete click; on an exception the entries are unchanged |
| Session.StuckWithoutProjectSection | asoid/app.py:167-168 | a stored configuration without a `[Project]` section makes the form raise `KeyError` whatever is clicked |
| Session.UploadOfMissingFileLocksForm | asoid/app.py:167-180 | on a fresh session, uploading a path with no readable file succeeds, and every later form run raises |
| Session.GuardedFormStep | asoid/app.py:165-188 | the corrected form step never raises and agrees with the original whenever that one does not raise |
| Session.GuardedDeleteAlwaysClears | asoid/app.py:183-188 | with the corrected prefill, Delete on any non-`None` configuration sets `config` and `page` to `None` |
| StageDispatch.Dispatch | asoid/app.py:261-297 | the `if`/`elif` chain from selected option to stage; characterised by DispatchIsFirstMatch, DispatchSpec and DispatchHomeIff |
| StageDispatch.Contains | asoid/app.py:263 | true exactly when the label occurs at some index of the selected option (Python's `in` on strings) |
| StageDispatch.FirstMatchSpec | asoid/app.py:263-297 | the reference search returns a matching stage with no matching stage before it, and nothing exactly when no label matches |
| StageDispatch.DispatchIsFirstMatch | asoid/app.py:261-297 | the `elif` chain equals `'Menu'`-by-equality followed by the first-match search over the fixed label order |
| StageDispatch.DispatchHomeIff | asoid/app.py:261-262 | the home view is chosen if and only if the selection equals `'Menu'` |
| StageDispatch.DispatchSpec | asoid/app.py:263-297 | any other selection runs a stage iff that stage's label occurs in it and no earlier label does; no stage runs iff no label occurs |
| StageDispatch.Invoke | asoid/app.py:264-297 | a stage gets the session's `config` when the key exists and `None` otherwise; Upload Data and Extract Features get no `ri` slot, Discover gets it only when `config` exists, the others always |
| MenuGating.LoadSucceeds | asoid/app.py:195-199 | whether the `try` block reaches its end (project section reachable and the loader returns); characterised by GatingIff |
| MenuGating.MenuFor | asoid/app.py:195-236 | the menu a run shows for a session state; characterised by GatingIff, NoConfigReducedMenu and MissingFileReducedMenu |
| MenuGating.Menu | asoid/app.py:200-236 | names and icons have equal length, five entries after a successful load and four otherwise, `'Menu'`/`'window-desktop'` first, and Extract Features present iff the load succeeded |
| MenuGating.GatingIff | asoid/app.py:195-236 | the full menu is shown iff `config` holds a configuration with a `[Project]` section and the loader returns on its path and name; otherwise the reduced menu |
| MenuGating.NoConfigReducedMenu | asoid/app.py:195-236 | with `config` absent or `None` the menu is the reduced one, whatever the loader does |
| MenuGating.MissingFileReducedMenu | asoid/app.py:195-236 | a configuration read from a missing file yields the reduced menu |
| MenuGating.ReducedIsFullWithoutExtract | asoid/app.py:200-236 | the reduced names and icons are the full ones without index 2 (`'Extract Features'`, `'bar-chart-line'`), order kept |
| MenuGating.MenuIsRegistryView | asoid/app.py:200-236 | each menu is the stage catalogue filtered by the gate, and the name and icon at every index come from the same catalogue entry |
| MenuGating.VisibleAll | asoid/app.py:200-217 | after a successful load the catalogue is shown whole, nothing filtered out |
| MenuGating.VisibleWithoutDataIsReady | asoid/app.py:220-236 | without a loaded project an entry is kept if and only if it is in the catalogue and needs no loaded project |
| MenuGating.VisibleWithoutData | asoid/app.py:220-236 | without a loaded project the catalogue view is exactly entries 0, 1, 3 and 4 (Extract Features removed), in order |
| MenuGating.OptionsDispatchToOwnStage | asoid/app.py:200-297 | every option of either menu dispatches to its own entry's stage |
| MenuGating.DefaultSelectionIsHome | asoid/app.py:238-262 | the widget's default index 0 selects `'Menu'`, which dispatches to the home view, in both menus |
| App.Run | asoid/app.py:156-297 | one whole run of `main()`; characterised by FreshSession, UploadThenMenu, UploadOfMissingFileCrashes, DeleteThenReducedMenu, StagesGetSessionConfig and PageNeverRead |
| App.Render | asoid/app.py:195-297 | the menu and dispatch part of a run that did not rerun; characterised by FreshSession, UploadThenMenu, DeleteThenReducedMenu, StagesGetSessionConfig and PageNeverRead |
| App.GuardedRun | asoid/app.py:156-297 | a run whose form uses the corrected prefill; characterised by GuardedRunNeverCrashes and GuardedUploadOfMissingFile |
| App.FreshSession | asoid/app.py:156-262 | a fresh session ends initialised, with the default path in the box, the reduced menu, and the home view |
| App.StagesGetSessionConfig | asoid/app.py:264-297 | after initialisation every stage receives the session's own `config` value, and the `ri=None` fallback for Discover never happens |
| App.PageNeverRead | asoid/app.py:156-297 | the value of `page` does not affect anything a run shows or calls |
| App.UploadThenMenu | asoid/app.py:173-236 | uploading a readable config with a `[Project]` section forces a rerun that stores it with `page` unchanged; the next run shows the menu the loader's verdict selects and passes the config to Active Learning |
| App.UploadOfMissingFileCrashes | asoid/app.py:167-180 | uploading a path with no readable file reruns with an empty configuration, and every later run raises `KeyError('Project')` |
| App.GuardedRunNeverCrashes | asoid/app.py:165-188 | with the corrected prefill no run raises |
| App.GuardedUploadOfMissingFile | asoid/app.py:165-236 | with the corrected prefill the same upload gives the reduced menu and Delete clears it again |
| App.DeleteThenReducedMenu | asoid/app.py:183-236 | Delete forces a rerun with `config` and `page` set to `None`; the next run keeps `page` at `None` and shows the reduced menu |

## Left out

- `index()`, `img_to_bytes` and `img_to_html` (lines 14-118): presentation, file reading and base64 encoding.
- Page configuration, CSS, the logo, the sub-header and the `option_menu` styling (lines 122-154, 190-194, 238-259): presentation only.
- Streamlit's rerun cycle, the form's `clear_on_submit` and the widget's own memory of its selection: the host framework; a run takes the selected option as a parameter.
- `ConfigParser` internals: the `DEFAULT` section fallback of `section.get`, interpolation, `optionxform`, and the exceptions `read` raises on a malformed file; the readable files are given already parsed.
- `load_data` (line 198): an external loader, modelled only as whether it returns.
- The stage applications' `main` functions (lines 265-297): modelled only as the `Call` the dispatcher makes.

## Findings

| source | as written | input that shows it | evidently intended | confidence | as-written member | corrected member |
|---|---|---|---|---|---|---|
| asoid/app.py:168 | the form's prefill subscripts the stored configuration's `Project` section outside any `try`, before either button is rendered | Upload with a path that names no readable file (for instance an empty path); the stored parser has no sections, so every later run raises `KeyError('Project')` and Delete can never be pressed | a configuration without a project section leaves the form usable (reduced menu, Delete available), as the silent fallback of lines 195-236 intends | high; not executed | Session.StuckWithoutProjectSection | Session.GuardedFormStep |

/**
 * One run of the app's `main()` over the session state: initialisation, the
 * config form, then (when no click fired and forced a rerun) the gated menu and
 * the dispatch of the option the widget reports as selected.
 */
module App {
  import opened Wrappers
  import opened Values
  import opened Session
  import opened StageDispatch
  import opened MenuGating

  /** How a run ends. */
  datatype RunResult =
    | Crashed(fault: Fault)   // an exception escaped `main()`
    | Rerun(state: State)     // a form click fired; `st.experimental_rerun()` starts over
    | Rendered(state: State, prefill: Option<string>, menu: MenuLists, call: Option<Call>)

  /** The rest of a run once the form rendered without a firing click. */
  function Render(m: State, form: FormRun, loader: Loader, selection: string): RunResult
  {
    var stage := Dispatch(selection);
    Rendered(m, form.prefill, MenuFor(m, loader),
             if stage.Some? then Some(Invoke(m, stage.value)) else None)
  }

  /**
   * One run: `m` is the session state before it, `click` what the user does with
   * the form, `files` the readable config files, `loader` the outcome of
   * `load_data`, `selection` the option the menu widget returns.
   */
  function Run(m: State, click: Click, files: map<string, Config>, loader: Loader, selection: string): RunResult
  {
    var m1 := Initialized(m);
    match FormStep(m1, click, files)
    case Err(f) => Crashed(f)
    case Ok(form) => if Fires(m1, click) then Rerun(form.state) else Render(m1, form, loader, selection)
  }

  /** A run whose config form uses the guarded prefill. */
  function GuardedRun(m: State, click: Click, files: map<string, Config>, loader: Loader, selection: string): RunResult
  {
    var m1 := Initialized(m);
    var form := GuardedFormStep(m1, click, files);
    if Fires(m1, click) then Rerun(form.state) else Render(m1, form, loader, selection)
  }

  /** What a run shows, with the session state left out. */
  function Shown(r: RunResult): RunResult
  {
    match r
    case Rendered(_, p, menu, call) => Rendered(map[], p, menu, call)
    case Rerun(_) => Rerun(map[])
    case Crashed(_) => r
  }

  /**
   * A fresh session shows the default path, the reduced menu and, for the
   * default selection, the home view.
   */
  lemma FreshSession(files: map<string, Config>, loader: Loader)
    ensures Run(map[], NoClick, files, loader, "Menu")
              == Rendered(map[PageKey := Text(FirstPage), ConfigKey := NoneValue],
                          Some(DefaultConfigPath), Menu(false), Some(ShowIndex))
  {
  }

  /**
   * The `"config" in st.session_state.keys()` test is always true after
   * initialisation: every stage gets the session's own configuration, and every
   * stage but Upload Data and Extract Features gets the `ri` slot.
   */
  lemma StagesGetSessionConfig(m: State, click: Click, files: map<string, Config>, loader: Loader, selection: string)
    ensures var r := Run(m, click, files, loader, selection);
            r.Rendered? && r.call.Some? && r.call.value.RunStage? ==>
              r.call.value.config == r.state[ConfigKey]
              && (r.call.value.withSlot <==> r.call.value.stage !in {UploadData, ExtractFeatures})
  {
  }

  /** `page` is written but never read: what a run shows does not depend on it. */
  lemma PageNeverRead(m: State, v: Value, click: Click, files: map<string, Config>, loader: Loader, selection: string)
    ensures Shown(Run(m[PageKey := v], click, files, loader, selection))
              == Shown(Run(m, click, files, loader, selection))
  {
  }

  /**
   * Uploading a readable config with a `[Project]` section forces a rerun that
   * stores it and leaves `page` alone; the next run shows the full menu exactly
   * when the loader accepts the project, and passes the configuration to the
   * selected stage.
   */
  lemma UploadThenMenu(m: State, path: string, files: map<string, Config>, loader: Loader, selection: string)
    requires ConfigKey !in m || m[ConfigKey] == NoneValue
    requires path in files && ProjectSectionName in files[path].sections
    ensures var m1 := Initialized(m);
            var after := m1[ConfigKey := Parsed(files[path])];
            var section := files[path].sections[ProjectSectionName];
            Run(m, Upload(path), files, loader, selection) == Rerun(after)
            && after[PageKey] == m1[PageKey]
            && var next := Run(after, NoClick, files, loader, selection);
               next.Rendered?
               && next.menu == Menu(loader(Get(section, PathOption), Get(section, NameOption)))
               && (selection == "Active Learning" ==>
                     next.call == Some(RunStage(ActiveLearning, Parsed(files[path]), true)))
  {
    var m1 := Initialized(m);
    var after := m1[ConfigKey := Parsed(files[path])];
    InitKeepsInitialised(after);
    if selection == "Active Learning" {
      ActiveLearningDispatch();
    }
  }

  /**
   * As written, uploading a path that names no readable file forces a rerun
   * that stores an empty configuration, and every later run crashes with
   * `KeyError('Project')`, whatever the user clicks.
   */
  lemma UploadOfMissingFileCrashes(m: State, path: string, files: map<string, Config>, loader: Loader,
                                   click: Click, selection: string)
    requires ConfigKey !in m || m[ConfigKey] == NoneValue
    requires path !in files
    ensures var after := Initialized(m)[ConfigKey := Parsed(Config(map[]))];
            Run(m, Upload(path), files, loader, selection) == Rerun(after)
            && Run(after, click, files, loader, selection) == Crashed(MissingKey(ProjectSectionName))
  {
  }

  /** The guarded run never crashes. */
  lemma GuardedRunNeverCrashes(m: State, click: Click, files: map<string, Config>, loader: Loader, selection: string)
    ensures !GuardedRun(m, click, files, loader, selection).Crashed?
  {
  }

  /**
   * With the guarded prefill, the same upload gives the reduced menu (the load
   * fails silently) and Delete clears the configuration again.
   */
  lemma GuardedUploadOfMissingFile(m: State, path: string, files: map<string, Config>, loader: Loader, selection: string)
    requires ConfigKey !in m || m[ConfigKey] == NoneValue
    requires path !in files
    ensures var after := Initialized(m)[ConfigKey := Parsed(Config(map[]))];
            var next := GuardedRun(after, NoClick, files, loader, selection);
            GuardedRun(m, Upload(path), files, loader, selection) == Rerun(after)
            && next.Rendered? && next.menu == Menu(false)
            && GuardedRun(after, Click.Delete, files, loader, selection)
                 == Rerun(after[ConfigKey := NoneValue][PageKey := NoneValue])
  {
  }

  /**
   * Deleting a configuration forces a rerun with `config` and `page` both
   * `None`; the next run keeps `page` at `None` (initialisation only fills
   * absent keys) and shows the reduced menu.
   */
  lemma DeleteThenReducedMenu(m: State, c: Config, files: map<string, Config>, loader: Loader, selection: string)
    requires ConfigKey in m && m[ConfigKey] == Parsed(c) && ProjectSectionName in c.sections
    ensures var cleared := Initialized(m)[ConfigKey := NoneValue][PageKey := NoneValue];
            Run(m, Click.Delete, files, loader, selection) == Rerun(cleared)
            && var next := Run(cleared, NoClick, files, loader, selection);
               next.Rendered? && next.menu == Menu(false) && next.state[PageKey] == NoneValue
  {
  }
}

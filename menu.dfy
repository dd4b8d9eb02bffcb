/**
 * Menu gating, lines 195-236: the project is loaded inside a bare
 * `try/except`; success gives the five-entry menu, any exception the four-entry
 * one. Names and icons are parallel lists handed to the `option_menu` widget.
 */
module MenuGating {
  import opened Wrappers
  import opened Values
  import opened StageDispatch

  /**
   * `load_data(working_dir, prefix)`: whether it returns rather than raises, for
   * the two option values read from the `[Project]` section (`None` when absent).
   */
  type Loader = (Option<string>, Option<string>) -> bool

  /** The `try` block runs to its end: the project section is reachable and the loader returns. */
  predicate LoadSucceeds(m: State, loader: Loader)
  {
    match ProjectSection(m)
    case Err(_) => false
    case Ok(section) => loader(Get(section, PathOption), Get(section, NameOption))
  }

  /** The menu labels and their icons, index by index. */
  datatype MenuLists = MenuLists(names: seq<string>, icons: seq<string>)

  /** The two literal menus: the `try` branch when the load succeeded, the `except` branch otherwise. */
  function Menu(loadOk: bool): (r: MenuLists)
    ensures |r.names| == |r.icons|
    ensures |r.names| == if loadOk then 5 else 4
    ensures r.names[0] == "Menu" && r.icons[0] == "window-desktop"
    ensures "Extract Features" in r.names <==> loadOk
  {
    if loadOk then
      MenuLists(["Menu", "Upload Data", "Extract Features", "Active Learning", "Predict"],
                ["window-desktop", "upload", "bar-chart-line", "diagram-2", "robot"])
    else
      MenuLists(["Menu", "Upload Data", "Active Learning", "Predict"],
                ["window-desktop", "upload", "diagram-2", "robot"])
  }

  /** The menu a run shows for session state `m`. */
  function MenuFor(m: State, loader: Loader): MenuLists
  {
    Menu(LoadSucceeds(m, loader))
  }

  /**
   * The full menu appears exactly when the session holds a configuration with a
   * `[Project]` section and the loader accepts its path and name; every failure
   * (no `config` key, `None`, no section, a loader exception) gives the reduced one.
   */
  lemma GatingIff(m: State, loader: Loader)
    ensures MenuFor(m, loader) == Menu(true) <==>
              ProjectSection(m).Ok?
              && loader(Get(ProjectSection(m).value, PathOption), Get(ProjectSection(m).value, NameOption))
    ensures MenuFor(m, loader) == Menu(true) || MenuFor(m, loader) == Menu(false)
  {
  }

  /** Without a configuration the menu is the reduced one, whatever the loader would say. */
  lemma NoConfigReducedMenu(m: State, loader: Loader)
    requires ConfigKey !in m || m[ConfigKey] == NoneValue
    ensures MenuFor(m, loader) == Menu(false)
  {
  }

  /** A configuration read from a missing file has no sections, so the menu is the reduced one. */
  lemma MissingFileReducedMenu(m: State, files: map<string, Config>, path: string, loader: Loader)
    requires path !in files
    ensures MenuFor(m[ConfigKey := Parsed(ReadConfig(files, path))], loader) == Menu(false)
  {
  }

  /**
   * The reduced lists are the full lists with the Extract Features entry (index
   * 2, icon `bar-chart-line`) removed and the rest in the same order.
   */
  lemma ReducedIsFullWithoutExtract()
    ensures Menu(true).names[2] == "Extract Features" && Menu(true).icons[2] == "bar-chart-line"
    ensures Menu(false).names == Menu(true).names[..2] + Menu(true).names[3..]
    ensures Menu(false).icons == Menu(true).icons[..2] + Menu(true).icons[3..]
  {
  }

  /** A catalogue entry: the stage, its icon, and whether it needs a loaded project. */
  datatype Entry = Entry(stage: Stage, icon: string, needsData: bool)

  /** The stages the menu offers, in menu order. */
  const Registry: seq<Entry> := [
    Entry(Home, "window-desktop", false),
    Entry(UploadData, "upload", false),
    Entry(ExtractFeatures, "bar-chart-line", true),
    Entry(ActiveLearning, "diagram-2", false),
    Entry(Predict, "robot", false)
  ]

  /** The entries reachable with or without a loaded project, in their original order. */
  function Visible(es: seq<Entry>, loadOk: bool): seq<Entry>
  {
    if es == [] then []
    else if es[0].needsData && !loadOk then Visible(es[1..], loadOk)
    else [es[0]] + Visible(es[1..], loadOk)
  }

  /** With a loaded project nothing is filtered out. */
  lemma {:induction false} VisibleAll(es: seq<Entry>)
    ensures Visible(es, true) == es
  {
    if es != [] {
      VisibleAll(es[1..]);
      assert es == [es[0]] + es[1..];
    }
  }

  /** Without a loaded project exactly the catalogue entries that need no data remain. */
  lemma {:induction false} VisibleWithoutDataIsReady(es: seq<Entry>)
    ensures forall e :: e in Visible(es, false) ==> e in es && !e.needsData
    ensures forall e :: e in es && !e.needsData ==> e in Visible(es, false)
  {
    if es != [] {
      VisibleWithoutDataIsReady(es[1..]);
    }
  }

  /** Without a loaded project the catalogue loses exactly its Extract Features entry. */
  lemma VisibleWithoutData()
    ensures Visible(Registry, false) == [Registry[0], Registry[1], Registry[3], Registry[4]]
  {
  }

  /**
   * Each literal menu is the catalogue seen through the gate: the name and the
   * icon at every index come from the same entry.
   */
  lemma MenuIsRegistryView(loadOk: bool)
    ensures var v := Visible(Registry, loadOk);
            |Menu(loadOk).names| == |v|
            && forall i :: 0 <= i < |v| ==>
                 Menu(loadOk).names[i] == Label(v[i].stage) && Menu(loadOk).icons[i] == v[i].icon
  {
    if loadOk {
      VisibleAll(Registry);
    } else {
      VisibleWithoutData();
    }
  }

  /** `'Upload Data'` is the first label tried after `'Menu'`. */
  lemma UploadDataDispatch()
    ensures Dispatch("Upload Data") == Some(UploadData)
  {
  }

  /** `'Extract Features'` does not contain `'Upload Data'`, so its own label wins. */
  lemma ExtractFeaturesDispatch()
    ensures Dispatch("Extract Features") == Some(ExtractFeatures)
  {
    MissingFirstChar("Extract Features", "Upload Data");
    assert Contains("Extract Features", "Extract Features");
  }

  /** `'Active Learning'` contains neither earlier label. */
  lemma ActiveLearningDispatch()
    ensures Dispatch("Active Learning") == Some(ActiveLearning)
  {
    MissingFirstChar("Active Learning", "Upload Data");
    MissingFirstChar("Active Learning", "Extract Features");
    assert Contains("Active Learning", "Active Learning");
  }

  /** `'Predict'` is shorter than every label tried before its own. */
  lemma PredictDispatch()
    ensures Dispatch("Predict") == Some(Predict)
  {
  }

  /** The label of each catalogue entry dispatches to the entry's own stage. */
  lemma LabelsDispatchToOwnStage()
    ensures forall e :: e in Registry ==> Dispatch(Label(e.stage)) == Some(e.stage)
  {
    UploadDataDispatch();
    ExtractFeaturesDispatch();
    ActiveLearningDispatch();
    PredictDispatch();
  }

  /** Every option of either menu dispatches to the stage of its own entry. */
  lemma OptionsDispatchToOwnStage(loadOk: bool, i: nat)
    requires i < |Menu(loadOk).names|
    ensures Dispatch(Menu(loadOk).names[i]) == Some(Visible(Registry, loadOk)[i].stage)
  {
    MenuIsRegistryView(loadOk);
    LabelsDispatchToOwnStage();
    var e := Visible(Registry, loadOk)[i];
    assert e in Registry;
  }

  /** The widget's default index 0 selects `'Menu'`, so a first render shows the home view. */
  lemma DefaultSelectionIsHome(loadOk: bool)
    ensures Dispatch(Menu(loadOk).names[0]) == Some(Home)
  {
  }
}

/**
 * The session half of the app's `main()`: first-run initialisation of
 * `st.session_state` and the two-mode config form (Upload while no configuration
 * is loaded, Delete while one is). One click is one atomic transition; the
 * `st.experimental_rerun()` that follows it is the caller's business.
 */
module Session {
  import opened Wrappers
  import opened Values

  /** The value `page` gets on a session's first run. */
  const FirstPage := "Step 1"

  /** Both keys the rest of `main()` reads are present. */
  predicate HasSessionKeys(m: State)
  {
    PageKey in m && ConfigKey in m
  }

  /** The state after the two `if key not in st.session_state` guards. */
  function Initialized(m: State): (r: State)
    ensures HasSessionKeys(r)
    ensures r.Keys == m.Keys + {PageKey, ConfigKey}
    ensures forall k :: k in m ==> r[k] == m[k]
    ensures PageKey !in m ==> r[PageKey] == Text(FirstPage)
    ensures ConfigKey !in m ==> r[ConfigKey] == NoneValue
  {
    var withPage := if PageKey in m then m else m[PageKey := Text(FirstPage)];
    if ConfigKey in withPage then withPage else withPage[ConfigKey := NoneValue]
  }

  /** Initialising twice is initialising once. */
  lemma InitIdempotent(m: State)
    ensures Initialized(Initialized(m)) == Initialized(m)
  {
  }

  /** On a state that already holds both keys, initialisation changes nothing. */
  lemma InitKeepsInitialised(m: State)
    requires HasSessionKeys(m)
    ensures Initialized(m) == m
  {
  }

  /** What the user does with the config form during one run. */
  datatype Click = NoClick | Upload(typed: string) | Delete

  /** What one run of the form shows and the session state it leaves. */
  datatype FormRun = FormRun(prefill: Option<string>, state: State)

  /**
   * The text the path box starts with: the default path while no configuration
   * is loaded, otherwise the configuration's `PROJECT_NAME` (Python `None` when
   * the option is absent). Subscripting the configuration can raise.
   */
  function Prefill(m: State): Result<Option<string>, Fault>
    requires ConfigKey in m
  {
    if m[ConfigKey] == NoneValue then Ok(Some(DefaultConfigPath))
    else match ProjectSection(m)
      case Ok(section) => Ok(Get(section, NameOption))
      case Err(f) => Err(f)
  }

  /**
   * The click takes effect: only the button that the current mode shows can be
   * pressed (Upload with no configuration, Delete with one).
   */
  predicate Fires(m: State, click: Click)
    requires ConfigKey in m
  {
    if m[ConfigKey] == NoneValue then click.Upload? else click.Delete?
  }

  /**
   * The state a click leaves once the form has rendered. Upload stores whatever
   * `ConfigParser.read` makes of the typed path (in Upload mode the box starts
   * from the constant default path, so it returns a string and the `is not None`
   * test always passes); Delete sets both `config` and `page` to `None`.
   */
  function Transition(m: State, click: Click, files: map<string, Config>): State
    requires ConfigKey in m
  {
    if !Fires(m, click) then m
    else if click.Upload? then m[ConfigKey := Parsed(ReadConfig(files, click.typed))]
    else m[ConfigKey := NoneValue][PageKey := NoneValue]
  }

  /** One run of the config form, as written: the prefill is computed first and may raise. */
  function FormStep(m: State, click: Click, files: map<string, Config>): Result<FormRun, Fault>
    requires ConfigKey in m
  {
    match Prefill(m)
    case Err(f) => Err(f)
    case Ok(p) => Ok(FormRun(p, Transition(m, click, files)))
  }

  /**
   * Upload fires exactly when no configuration is loaded; it stores the parsed
   * typed path, whatever the path is, and touches no other key.
   */
  lemma SubmitGuarded(m: State, typed: string, files: map<string, Config>)
    requires ConfigKey in m
    ensures m[ConfigKey] == NoneValue ==>
              FormStep(m, Upload(typed), files)
                == Ok(FormRun(Some(DefaultConfigPath), m[ConfigKey := Parsed(ReadConfig(files, typed))]))
    ensures m[ConfigKey] != NoneValue && FormStep(m, Upload(typed), files).Ok? ==>
              FormStep(m, Upload(typed), files).value.state == m
    ensures FormStep(m, Upload(typed), files).Ok? ==>
              var s := FormStep(m, Upload(typed), files).value.state;
              s.Keys == m.Keys && forall k :: k in m && k != ConfigKey ==> s[k] == m[k]
  {
  }

  /**
   * Delete fires exactly when a configuration is loaded and the form rendered;
   * it sets `config` and `page` to `None` and touches no other key.
   */
  lemma DeleteGuarded(m: State, files: map<string, Config>)
    requires ConfigKey in m
    ensures m[ConfigKey] == NoneValue ==> FormStep(m, Delete, files) == Ok(FormRun(Some(DefaultConfigPath), m))
    ensures m[ConfigKey] != NoneValue && FormStep(m, Delete, files).Ok? ==>
              var s := FormStep(m, Delete, files).value.state;
              s[ConfigKey] == NoneValue && s[PageKey] == NoneValue
              && s.Keys == m.Keys + {PageKey}
              && forall k :: k in m && k != ConfigKey && k != PageKey ==> s[k] == m[k]
  {
  }

  /** Without a click that fires, the form leaves the state as it was. */
  lemma IdleFormKeepsState(m: State, click: Click, files: map<string, Config>)
    requires ConfigKey in m
    requires !Fires(m, click)
    ensures FormStep(m, click, files).Ok? ==> FormStep(m, click, files).value.state == m
  {
  }

  /**
   * The form raises exactly when a non-`None` configuration has no reachable
   * project section; otherwise the path box shows the default path (no
   * configuration) or the configuration's `PROJECT_NAME`.
   */
  lemma FormFaultIff(m: State, click: Click, files: map<string, Config>)
    requires ConfigKey in m
    ensures FormStep(m, click, files).Err? <==> m[ConfigKey] != NoneValue && ProjectSection(m).Err?
    ensures m[ConfigKey] == NoneValue ==>
              FormStep(m, click, files) == Ok(FormRun(Some(DefaultConfigPath), Transition(m, click, files)))
    ensures m[ConfigKey] != NoneValue && ProjectSection(m).Ok? ==>
              FormStep(m, click, files)
                == Ok(FormRun(Get(ProjectSection(m).value, NameOption), Transition(m, click, files)))
  {
  }

  /**
   * As written, a stored configuration without a `[Project]` section makes every
   * later run raise `KeyError('Project')` before either button exists: Delete can
   * never fire again.
   */
  lemma StuckWithoutProjectSection(m: State, click: Click, files: map<string, Config>)
    requires ConfigKey in m && m[ConfigKey].Parsed?
    requires ProjectSectionName !in m[ConfigKey].config.sections
    ensures FormStep(m, click, files) == Err(MissingKey(ProjectSectionName))
  {
  }

  /**
   * Uploading a path that names no readable file (for instance the default path
   * on a machine without the workshop project) reaches that state.
   */
  lemma UploadOfMissingFileLocksForm(typed: string, files: map<string, Config>, click: Click)
    requires typed !in files
    ensures var m := Initialized(map[]);
            var after := FormStep(m, Upload(typed), files);
            after.Ok? && FormStep(after.value.state, click, files) == Err(MissingKey(ProjectSectionName))
  {
  }

  /** The prefill with the missing section caught: it falls back to the default path. */
  function GuardedPrefill(m: State): Option<string>
    requires ConfigKey in m
  {
    match Prefill(m)
    case Ok(p) => p
    case Err(_) => Some(DefaultConfigPath)
  }

  /** One run of the config form with the guarded prefill: it never raises. */
  function GuardedFormStep(m: State, click: Click, files: map<string, Config>): (r: FormRun)
    requires ConfigKey in m
    ensures FormStep(m, click, files).Ok? ==> r == FormStep(m, click, files).value
  {
    FormRun(GuardedPrefill(m), Transition(m, click, files))
  }

  /** With the guarded prefill, Delete always clears a loaded configuration. */
  lemma GuardedDeleteAlwaysClears(m: State, files: map<string, Config>)
    requires ConfigKey in m && m[ConfigKey] != NoneValue
    ensures GuardedFormStep(m, Delete, files).state == m[ConfigKey := NoneValue][PageKey := NoneValue]
  {
  }

  /** `st.session_state` of one browser session. */
  class SessionStore {
    var entries: State

    /** A new session holds no keys. */
    constructor()
      ensures entries == map[]
    {
      entries := map[];
    }

    /** Lines 156-159: create `page` and `config` when absent, never overwrite them. */
    method Init()
      modifies this
      ensures entries == Initialized(old(entries))
    {
      if PageKey !in entries {
        entries := entries[PageKey := Text(FirstPage)];
      }
      if ConfigKey !in entries {
        entries := entries[ConfigKey := NoneValue];
      }
    }

    /** Render the form and press Upload with `typed` in the path box. */
    method Submit(typed: string, files: map<string, Config>) returns (outcome: Result<FormRun, Fault>)
      requires ConfigKey in entries
      modifies this
      ensures outcome == FormStep(old(entries), Upload(typed), files)
      ensures entries == if outcome.Ok? then outcome.value.state else old(entries)
    {
      var prefill := Prefill(entries);
      if prefill.Err? {
        return Err(prefill.error);
      }
      if entries[ConfigKey] == NoneValue {
        entries := entries[ConfigKey := Parsed(ReadConfig(files, typed))];
      }
      outcome := Ok(FormRun(prefill.value, entries));
    }

    /** Render the form and press Delete. */
    method Delete() returns (outcome: Result<FormRun, Fault>)
      requires ConfigKey in entries
      modifies this
      ensures outcome == FormStep(old(entries), Click.Delete, map[])
      ensures entries == if outcome.Ok? then outcome.value.state else old(entries)
    {
      var prefill := Prefill(entries);
      if prefill.Err? {
        return Err(prefill.error);
      }
      if entries[ConfigKey] != NoneValue {
        entries := entries[ConfigKey := NoneValue][PageKey := NoneValue];
      }
      outcome := Ok(FormRun(prefill.value, entries));
    }
  }
}

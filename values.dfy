/**
 * The values the session-state machine of the A-SOID app handles: the entries of
 * `st.session_state`, the parsed project configuration and the exceptions that the
 * code either lets escape or catches.
 */
module Values {
  import opened Wrappers

  /** One `[section]` of an INI file: option name to value. */
  type Section = map<string, string>

  /** A `configparser.ConfigParser` after `read`: the sections it found, by name. */
  datatype Config = Config(sections: map<string, Section>)

  /**
   * What an entry of `st.session_state` can hold here: Python's `None`, a string
   * (the `page` entry) or a parsed configuration (the `config` entry).
   */
  datatype Value = NoneValue | Text(text: string) | Parsed(config: Config)

  /** The session state: a dictionary from key to value. */
  type State = map<string, Value>

  /** The exceptions raised on the way to the project settings. */
  datatype Fault =
    | MissingKey(key: string)  // KeyError: absent session key or absent INI section
    | NotSubscriptable         // TypeError: `None["Project"]`, `"text"["Project"]`

  const PageKey := "page"
  const ConfigKey := "config"
  const ProjectSectionName := "Project"
  const PathOption := "PROJECT_PATH"
  const NameOption := "PROJECT_NAME"

  /** The text the config form shows while no configuration is loaded. */
  const DefaultConfigPath := "workshop_project/WORKSHOP_START/config.ini"

  /**
   * `ConfigParser().read(path)`: the files the process can read are a parameter
   * (already parsed); a path that names no readable file is skipped silently and
   * leaves the parser without sections.
   */
  function ReadConfig(files: map<string, Config>, path: string): Config
  {
    if path in files then files[path] else Config(map[])
  }

  /**
   * `st.session_state['config']["Project"]`: the project section, or the exception
   * the subscripts raise.
   */
  function ProjectSection(m: State): Result<Section, Fault>
  {
    if ConfigKey !in m then Err(MissingKey(ConfigKey))
    else match m[ConfigKey]
      case Parsed(c) =>
        if ProjectSectionName in c.sections then Ok(c.sections[ProjectSectionName])
        else Err(MissingKey(ProjectSectionName))
      case _ => Err(NotSubscriptable)
  }

  /** `section.get(option)`: the value, or `None` when the option is absent. */
  function Get(section: Section, option: string): Option<string>
  {
    if option in section then Some(section[option]) else None
  }
}

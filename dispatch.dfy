/**
 * The stages the app can hand control to and the label matching of lines
 * 261-297: `'Menu'` by equality, every other stage by the first label, in a
 * fixed order, that occurs in the selected option.
 */
module StageDispatch {
  import opened Wrappers
  import opened Values

  datatype Stage =
    | Home              // index()
    | UploadData        // A_data_preprocess
    | ExtractFeatures   // B_extract_features
    | ActiveLearning    // C_auto_active_learning
    | RefineBehaviors   // D_manual_active_learning
    | CreateNewDataset  // E_create_new_training
    | Predict           // F_predict
    | Discover          // G_unsupervised_discovery

  /** The display label of each stage. */
  function Label(s: Stage): string
  {
    match s
    case Home => "Menu"
    case UploadData => "Upload Data"
    case ExtractFeatures => "Extract Features"
    case ActiveLearning => "Active Learning"
    case RefineBehaviors => "Refine Behaviors"
    case CreateNewDataset => "Create New Dataset"
    case Predict => "Predict"
    case Discover => "Discover"
  }

  /** The order in which the `elif` chain tries the labels after `'Menu'`. */
  const MatchOrder: seq<Stage> :=
    [UploadData, ExtractFeatures, ActiveLearning, RefineBehaviors, CreateNewDataset, Predict, Discover]

  /** `sub` occurs in `s` starting at index `i`. */
  ghost predicate OccursAt(sub: string, s: string, i: int)
  {
    0 <= i && i + |sub| <= |s| && s[i..i + |sub|] == sub
  }

  /** Python's `sub in s` on strings: case-sensitive substring containment. */
  function Contains(s: string, sub: string): (r: bool)
    ensures r <==> exists i :: OccursAt(sub, s, i)
    decreases |s|
  {
    if |s| < |sub| then false
    else if s[..|sub|] == sub then assert OccursAt(sub, s, 0); true
    else ShiftOccurrence(s, sub); Contains(s[1..], sub)
  }

  /** Past a non-match at index 0, the occurrences in `s` are those in `s[1..]`, shifted by one. */
  lemma ShiftOccurrence(s: string, sub: string)
    requires |sub| <= |s| && s[..|sub|] != sub
    ensures |s| > 0
    ensures (exists i :: OccursAt(sub, s, i)) <==> (exists j :: OccursAt(sub, s[1..], j))
  {
    if exists i :: OccursAt(sub, s, i) {
      var i :| OccursAt(sub, s, i);
      assert i != 0;
      assert s[1..][i - 1..i - 1 + |sub|] == s[i..i + |sub|];
      assert OccursAt(sub, s[1..], i - 1);
    }
    if exists j :: OccursAt(sub, s[1..], j) {
      var j :| OccursAt(sub, s[1..], j);
      assert s[1..][j..j + |sub|] == s[j + 1..j + 1 + |sub|];
      assert OccursAt(sub, s, j + 1);
    }
  }

  /** A string lacking the first character of `sub` does not contain `sub`. */
  lemma MissingFirstChar(s: string, sub: string)
    requires |sub| > 0 && sub[0] !in s
    ensures !Contains(s, sub)
  {
  }

  /** The label of `stage` occurs in the selected option. */
  predicate Matches(selection: string, stage: Stage)
  {
    Contains(selection, Label(stage))
  }

  /** Reference search: the first stage of `order` whose label occurs in `selection`. */
  function FirstMatch(selection: string, order: seq<Stage>): Option<Stage>
  {
    if order == [] then None
    else if Matches(selection, order[0]) then Some(order[0])
    else FirstMatch(selection, order[1..])
  }

  /** `FirstMatch` returns a matching stage with no match before it, and `None` only when nothing matches. */
  lemma {:induction false} FirstMatchSpec(selection: string, order: seq<Stage>)
    ensures FirstMatch(selection, order).Some? ==>
              exists k :: 0 <= k < |order| && order[k] == FirstMatch(selection, order).value
                          && Matches(selection, order[k])
                          && forall j :: 0 <= j < k ==> !Matches(selection, order[j])
    ensures FirstMatch(selection, order).None? <==>
              forall k :: 0 <= k < |order| ==> !Matches(selection, order[k])
  {
    if order != [] && !Matches(selection, order[0]) {
      FirstMatchSpec(selection, order[1..]);
      var rest := order[1..];
      if FirstMatch(selection, rest).Some? {
        var k :| 0 <= k < |rest| && rest[k] == FirstMatch(selection, rest).value
                 && Matches(selection, rest[k])
                 && forall j :: 0 <= j < k ==> !Matches(selection, rest[j]);
        assert order[k + 1] == rest[k];
        forall j | 0 <= j < k + 1
          ensures !Matches(selection, order[j])
        {
          if j > 0 { assert order[j] == rest[j - 1]; }
        }
      } else {
        forall k | 0 <= k < |order|
          ensures !Matches(selection, order[k])
        {
          if k > 0 { assert order[k] == rest[k - 1]; }
        }
      }
    } else if order != [] {
      assert order[0] == FirstMatch(selection, order).value;
    }
  }

  /** One step of the search: the head is tried before the rest. */
  lemma FirstMatchStep(selection: string, head: Stage, rest: seq<Stage>)
    ensures FirstMatch(selection, [head] + rest)
              == if Matches(selection, head) then Some(head) else FirstMatch(selection, rest)
  {
  }

  /** The `if`/`elif` chain of lines 261-297: which stage a selected option runs, if any. */
  function Dispatch(selection: string): Option<Stage>
  {
    if selection == "Menu" then Some(Home)
    else if Contains(selection, "Upload Data") then Some(UploadData)
    else if Contains(selection, "Extract Features") then Some(ExtractFeatures)
    else if Contains(selection, "Active Learning") then Some(ActiveLearning)
    else if Contains(selection, "Refine Behaviors") then Some(RefineBehaviors)
    else if Contains(selection, "Create New Dataset") then Some(CreateNewDataset)
    else if Contains(selection, "Predict") then Some(Predict)
    else if Contains(selection, "Discover") then Some(Discover)
    else None
  }

  /** Apart from `'Menu'`, the `elif` chain is the first-match search over `MatchOrder`. */
  lemma DispatchIsFirstMatch(selection: string)
    ensures Dispatch(selection) == if selection == "Menu" then Some(Home) else FirstMatch(selection, MatchOrder)
  {
    FirstMatchStep(selection, UploadData, MatchOrder[1..]);
    FirstMatchStep(selection, ExtractFeatures, MatchOrder[2..]);
    FirstMatchStep(selection, ActiveLearning, MatchOrder[3..]);
    FirstMatchStep(selection, RefineBehaviors, MatchOrder[4..]);
    FirstMatchStep(selection, CreateNewDataset, MatchOrder[5..]);
    FirstMatchStep(selection, Predict, MatchOrder[6..]);
    FirstMatchStep(selection, Discover, []);
  }

  /** `'Menu'` is the only selection that shows the home view. */
  lemma DispatchHomeIff(selection: string)
    ensures Dispatch(selection) == Some(Home) <==> selection == "Menu"
  {
  }

  /**
   * Any other selection runs the first stage of `MatchOrder` whose label it
   * contains, and nothing at all when it contains none of them.
   */
  lemma DispatchSpec(selection: string, stage: Stage)
    requires selection != "Menu"
    ensures Dispatch(selection) == Some(stage) <==>
              exists k :: 0 <= k < |MatchOrder| && MatchOrder[k] == stage
                          && Matches(selection, stage)
                          && forall j :: 0 <= j < k ==> !Matches(selection, MatchOrder[j])
    ensures Dispatch(selection) == None <==>
              forall k :: 0 <= k < |MatchOrder| ==> !Matches(selection, MatchOrder[k])
  {
    DispatchIsFirstMatch(selection);
    FirstMatchSpec(selection, MatchOrder);
    if exists k :: 0 <= k < |MatchOrder| && MatchOrder[k] == stage
                   && Matches(selection, stage)
                   && forall j :: 0 <= j < k ==> !Matches(selection, MatchOrder[j]) {
      var k :| 0 <= k < |MatchOrder| && MatchOrder[k] == stage
               && Matches(selection, stage)
               && forall j :: 0 <= j < k ==> !Matches(selection, MatchOrder[j]);
      var found := FirstMatch(selection, MatchOrder);
      assert found.Some?;
      var k' :| 0 <= k' < |MatchOrder| && MatchOrder[k'] == found.value
                && Matches(selection, MatchOrder[k'])
                && forall j :: 0 <= j < k' ==> !Matches(selection, MatchOrder[j]);
      assert k' == k;
    }
  }

  /** How a stage's entry point is called. */
  datatype Call =
    | ShowIndex                                           // index()
    | RunStage(stage: Stage, config: Value, withSlot: bool) // X.main(config=..., ri=...)

  /**
   * The call made for `stage`: the session's `config` when the key exists,
   * `None` otherwise. Upload Data and Extract Features take no `ri` slot; the
   * others get it, except Discover, which gets `ri=None` when `config` is absent.
   */
  function Invoke(m: State, stage: Stage): (c: Call)
    ensures stage == Home <==> c == ShowIndex
    ensures c.RunStage? ==> c.stage == stage
    ensures c.RunStage? ==> c.config == if ConfigKey in m then m[ConfigKey] else NoneValue
    ensures c.RunStage? ==> (c.withSlot <==> stage !in {UploadData, ExtractFeatures} && (stage == Discover ==> ConfigKey in m))
  {
    if stage == Home then ShowIndex
    else
      var config := if ConfigKey in m then m[ConfigKey] else NoneValue;
      match stage
      case UploadData => RunStage(stage, config, false)
      case ExtractFeatures => RunStage(stage, config, false)
      case Discover => RunStage(stage, config, ConfigKey in m)
      case _ => RunStage(stage, config, true)
  }
}

// The objects of the Config.Models namespace: logical-processor masks, rule templates,
// program rules, the save-on-change base object and the application config.

module ConfigModels {
  import opened Common

  /** How a mask is put on a process. */
  datatype MaskApplyType = NoMask | CPUSet | Affinity

  /** A Windows virtual-key code. */
  newtype VKey = k: int | 0 <= k < 256

  /** The UI theme setting (Themes/AppTheme.cs). */
  datatype Theme = Light | Dark | System

  /**
   * A logical-processor mask: entry i of boolMask says whether logical processor i is enabled.
   * Masks are compared by value here; the program compares the objects by reference, which
   * agrees as long as no two masks carry the same contents.
   */
  datatype LogicalProcessorMask = LogicalProcessorMask(
    name: string,
    maskType: MaskApplyType,
    boolMask: seq<bool>,
    hotkeys: seq<VKey>,
    isNoMask: bool)

  const NoMaskName: string := "<no mask>"

  /** LogicalProcessorMask.InitNoMask: the "no mask" entry, which clears whatever was applied. */
  function InitNoMask(hotkeys: seq<VKey>): LogicalProcessorMask
  {
    LogicalProcessorMask(NoMaskName, MaskApplyType.NoMask, [], hotkeys, true)
  }

  /** The public LogicalProcessorMask constructor: a user mask. */
  function NewMask(name: string, maskType: MaskApplyType, boolMask: seq<bool>, hotkeys: seq<VKey>): LogicalProcessorMask
  {
    LogicalProcessorMask(name, maskType, boolMask, hotkeys, false)
  }

  /** Some mask in the list has the given name. */
  predicate HasName(masks: seq<LogicalProcessorMask>, name: string)
  {
    exists i :: 0 <= i < |masks| && masks[i].name == name
  }

  /** No two masks in the list share a name. */
  predicate DistinctNames(masks: seq<LogicalProcessorMask>)
  {
    forall i, j :: 0 <= i < j < |masks| ==> masks[i].name != masks[j].name
  }

  // ---------------------------------------------------------------------------------------------
  // RuleTemplate and ProgramRule

  /** A glob pattern with the mask that program rules created from it receive. */
  class RuleTemplate {
    var ruleGlob: string
    var mask: LogicalProcessorMask

    constructor (ruleGlob: string, mask: LogicalProcessorMask)
      ensures this.ruleGlob == ruleGlob && this.mask == mask
    {
      this.ruleGlob := ruleGlob;
      this.mask := mask;
    }
  }

  /** The templates an optional template reference stands for: none, or that one. */
  function Single(t: RuleTemplate?): multiset<RuleTemplate>
  {
    if t == null then multiset{} else multiset{t}
  }

  /** A rule listens to its template exactly when its subscriptions are that one template. */
  lemma ListensIsSingle(r: ProgramRule)
    ensures r.ListensToItsTemplate() <==> r.subscriptions == Single(r.matchingRuleTemplate)
  {
    var t := r.matchingRuleTemplate;
    if t != null && |r.subscriptions| == 1 && t in r.subscriptions {
      var rest := r.subscriptions - multiset{t};
      assert |rest| == 0;
      assert r.subscriptions == rest + multiset{t};
    }
  }

  /**
   * A program rule: the mask a program path gets. The MaskChanged subscriptions of the rule's
   * handler are kept on the rule's side, as the multiset of templates whose event holds it.
   */
  class ProgramRule {
    const programPath: string
    var mask: LogicalProcessorMask
    var matchingRuleTemplate: RuleTemplate?
    var subscriptions: multiset<RuleTemplate>

    /**
     * The rule listens to its matching template's MaskChanged event, once, and to no other: no
     * subscription without a template, otherwise exactly one, to that template (ListensIsSingle).
     */
    predicate ListensToItsTemplate()
      reads this
    {
      if matchingRuleTemplate == null then |subscriptions| == 0
      else |subscriptions| == 1 && matchingRuleTemplate in subscriptions
    }

    constructor (programPath: string, mask: LogicalProcessorMask)
      ensures this.programPath == programPath && this.mask == mask
      ensures matchingRuleTemplate == null && subscriptions == multiset{}
      ensures ListensToItsTemplate()
    {
      this.programPath := programPath;
      this.mask := mask;
      matchingRuleTemplate := null;
      subscriptions := multiset{};
    }

    /** The rule has a template and no longer has that template's mask. */
    predicate IsDeviatingFromRuleTemplate()
      reads this, matchingRuleTemplate
    {
      matchingRuleTemplate != null && matchingRuleTemplate.mask != mask
    }

    /**
     * The MatchingRuleTemplate setter with OnMatchingRuleTemplateChanged: assigning a different
     * template moves the handler from the old template's event to the new one's.
     */
    method SetMatchingRuleTemplate(value: RuleTemplate?)
      modifies this`matchingRuleTemplate, this`subscriptions
      ensures matchingRuleTemplate == value && mask == old(mask)
      ensures old(matchingRuleTemplate) == value ==> subscriptions == old(subscriptions)
      ensures old(matchingRuleTemplate) != value ==>
        subscriptions == old(subscriptions) - Single(old(matchingRuleTemplate)) + Single(value)
      ensures old(ListensToItsTemplate()) ==> ListensToItsTemplate()
    {
      if value != matchingRuleTemplate {
        var oldValue := matchingRuleTemplate;
        matchingRuleTemplate := value;
        if oldValue != null {
          subscriptions := subscriptions - multiset{oldValue};
        }
        if value != null {
          subscriptions := subscriptions + multiset{value};
        }
      }
    }

    /** Dispose: the handler leaves the current template's event. */
    method Dispose()
      modifies this
      ensures matchingRuleTemplate == old(matchingRuleTemplate) && mask == old(mask)
      ensures subscriptions == old(subscriptions) - Single(matchingRuleTemplate)
      ensures old(ListensToItsTemplate()) ==> subscriptions == multiset{}
    {
      if matchingRuleTemplate != null {
        subscriptions := subscriptions - multiset{matchingRuleTemplate};
      }
    }
  }

  /** Without a template a rule never deviates; with one it deviates exactly when the masks differ. */
  lemma DeviationNeedsTemplate(rule: ProgramRule)
    ensures rule.matchingRuleTemplate == null ==> !rule.IsDeviatingFromRuleTemplate()
    ensures rule.matchingRuleTemplate != null ==>
      (rule.IsDeviatingFromRuleTemplate() <==> rule.matchingRuleTemplate.mask != rule.mask)
  {
  }

  /** Giving a rule its template's mask ends the deviation. */
  lemma TemplateMaskEndsDeviation(rule: ProgramRule)
    requires rule.matchingRuleTemplate != null && rule.mask == rule.matchingRuleTemplate.mask
    ensures !rule.IsDeviatingFromRuleTemplate()
  {
  }

  // ---------------------------------------------------------------------------------------------
  // ObservableConfigObject

  /**
   * The CollectionChanged event of one observable collection, as the number of times the
   * config-saving handler is subscribed to it.
   */
  class CollectionEvents {
    var saveHandlers: nat

    constructor ()
      ensures saveHandlers == 0
    {
      saveHandlers := 0;
    }
  }

  /** NotifyCollectionChangedAction. */
  datatype CollectionAction = Add | Remove | Replace | Move | Reset

  /** The base object that saves the config whenever one of its collections changes. */
  class ObservableConfigObject {
    /** One unsubscribe action per SaveOnCollectionChanged call: the collection it detaches from. */
    var collectionUnsubscribeActions: seq<CollectionEvents>

    constructor ()
      ensures collectionUnsubscribeActions == []
    {
      collectionUnsubscribeActions := [];
    }

    /** SaveOnCollectionChanged: subscribe the save handler and remember how to undo it. */
    method SaveOnCollectionChanged(collection: CollectionEvents)
      modifies this, collection
      ensures collection.saveHandlers == old(collection.saveHandlers) + 1
      ensures collectionUnsubscribeActions == old(collectionUnsubscribeActions) + [collection]
    {
      collection.saveHandlers := collection.saveHandlers + 1;
      collectionUnsubscribeActions := collectionUnsubscribeActions + [collection];
    }

    /**
     * Dispose: run every unsubscribe action once, then forget them. An event from which the
     * handler is already gone is left as it is, so each collection loses one subscription per
     * action that names it, down to none.
     */
    method Dispose()
      modifies this, collectionUnsubscribeActions
      ensures collectionUnsubscribeActions == []
      ensures forall c :: c in old(collectionUnsubscribeActions) ==>
        c.saveHandlers == SaturatingSub(old(c.saveHandlers), Count(old(collectionUnsubscribeActions), c))
    {
      var actions := collectionUnsubscribeActions;
      assert actions == old(collectionUnsubscribeActions);
      var i := 0;
      while i < |actions|
        invariant 0 <= i <= |actions|
        invariant forall c :: c in actions ==>
          c.saveHandlers == SaturatingSub(old(c.saveHandlers), Count(actions[..i], c))
      {
        var c := actions[i];
        if c.saveHandlers > 0 {
          c.saveHandlers := c.saveHandlers - 1;
        }
        forall d | d in actions
          ensures Count(actions[..i + 1], d) == Count(actions[..i], d) + (if c == d then 1 else 0)
        {
          assert actions[..i + 1] == actions[..i] + [c];
          CountSnoc(actions[..i], c, d);
        }
        i := i + 1;
      }
      assert actions[..i] == actions;
      collectionUnsubscribeActions := [];
      assert forall c :: c in old(collectionUnsubscribeActions) ==>
        c.saveHandlers == SaturatingSub(old(c.saveHandlers), Count(actions, c));
    }
  }

  // ---------------------------------------------------------------------------------------------
  // AppConfig

  /** The settings AppConfig keeps besides its three lists. */
  datatype Settings = Settings(
    muteHotkeySound: bool,
    startMinimized: bool,
    disableWelcomeMessage: bool,
    showGameModePopup: bool,
    showUpdatePopup: bool,
    clearMasksOnClose: bool,
    uiTheme: Theme)

  /** The static part of AppConfig: whether an instance was already constructed. */
  class ConfigLifetime {
    var constructed: bool

    constructor ()
      ensures !constructed
    {
      constructed := false;
    }
  }

  /** The configuration version written by the config file code (Config/AppConfigFile.cs). */
  const ConfigVersion: int := 1

  /** A default mask as the CPU information supplies it: a name and one entry per logical processor. */
  datatype DefaultMask = DefaultMask(name: string, boolMask: seq<bool>)

  /** The mask object created for a default mask. */
  function FromDefault(d: DefaultMask): LogicalProcessorMask
  {
    NewMask(d.name, CPUSet, d.boolMask, [])
  }

  /** The mask objects for a list of defaults, in order. */
  function FromDefaults(ds: seq<DefaultMask>): (r: seq<LogicalProcessorMask>)
    ensures |r| == |ds|
    ensures forall i :: 0 <= i < |ds| ==> r[i] == FromDefault(ds[i])
  {
    if ds == [] then [] else [FromDefault(ds[0])] + FromDefaults(ds[1..])
  }

  /** The mask list after the configuration 1 -> 2 migration: each default whose name is absent is appended. */
  function Migrated(masks: seq<LogicalProcessorMask>, ds: seq<DefaultMask>): seq<LogicalProcessorMask>
    decreases |ds|
  {
    if ds == [] then masks
    else if HasName(masks, ds[0].name) then Migrated(masks, ds[1..])
    else Migrated(masks + [FromDefault(ds[0])], ds[1..])
  }

  /** The application configuration: the mask, rule and template lists, the settings and the save flag. */
  class AppConfig {
    var logicalProcessorMasks: seq<LogicalProcessorMask>
    var programRules: seq<ProgramRule>
    var ruleTemplates: seq<RuleTemplate>
    var settings: Settings
    const isFirstRun: bool
    /** A delayed save is scheduled and has not written yet. */
    var isSaving: bool
    /** DelayedSave runs handed to the dispatcher. */
    var scheduledSaves: nat
    /** Config file writes done by DelayedSave. */
    var writtenSaves: nat
    /** The ObservableConfigObject part of the config and the events of its three collections. */
    const observable: ObservableConfigObject
    const masksChanged: CollectionEvents
    const rulesChanged: CollectionEvents
    const templatesChanged: CollectionEvents

    /** The field initialisation of the constructor. */
    constructor Init(masks: seq<LogicalProcessorMask>, rules: seq<ProgramRule>, templates: seq<RuleTemplate>,
                     settings: Settings, isFirstRun: bool)
      ensures logicalProcessorMasks == masks && programRules == rules && ruleTemplates == templates
      ensures this.settings == settings && this.isFirstRun == isFirstRun
      ensures !isSaving && scheduledSaves == 0 && writtenSaves == 0
      ensures fresh(observable) && observable.collectionUnsubscribeActions == []
      ensures fresh(masksChanged) && fresh(rulesChanged) && fresh(templatesChanged)
      ensures masksChanged.saveHandlers == 0 && rulesChanged.saveHandlers == 0 && templatesChanged.saveHandlers == 0
      ensures masksChanged != rulesChanged && masksChanged != templatesChanged && rulesChanged != templatesChanged
    {
      logicalProcessorMasks := masks;
      programRules := rules;
      ruleTemplates := templates;
      this.settings := settings;
      this.isFirstRun := isFirstRun;
      isSaving := false;
      scheduledSaves := 0;
      writtenSaves := 0;
      observable := new ObservableConfigObject();
      masksChanged := new CollectionEvents();
      rulesChanged := new CollectionEvents();
      templatesChanged := new CollectionEvents();
    }

    /** Save: schedule one delayed write unless one is already pending. */
    method Save()
      modifies this
      ensures isSaving
      ensures scheduledSaves == old(scheduledSaves) + (if old(isSaving) then 0 else 1)
      ensures writtenSaves == old(writtenSaves)
      ensures logicalProcessorMasks == old(logicalProcessorMasks) && programRules == old(programRules)
      ensures ruleTemplates == old(ruleTemplates) && settings == old(settings)
    {
      if !isSaving {
        isSaving := true;
        scheduledSaves := scheduledSaves + 1;
      }
    }

    /** DelayedSave after its delay: write the config file and clear the pending flag. */
    method DelayedSave()
      modifies this
      ensures !isSaving
      ensures writtenSaves == old(writtenSaves) + 1 && scheduledSaves == old(scheduledSaves)
      ensures logicalProcessorMasks == old(logicalProcessorMasks) && programRules == old(programRules)
      ensures ruleTemplates == old(ruleTemplates) && settings == old(settings)
    {
      writtenSaves := writtenSaves + 1;
      isSaving := false;
    }

    /** MigrateConfig: bring a configuration of an older version up to date. */
    method MigrateConfig(loadedConfigVersion: int, defaults: seq<DefaultMask>) returns (hasMigrated: bool)
      modifies this
      ensures hasMigrated <==> loadedConfigVersion < ConfigVersion
      ensures loadedConfigVersion < 2 ==> logicalProcessorMasks == Migrated(old(logicalProcessorMasks), defaults)
      ensures loadedConfigVersion >= 2 ==> logicalProcessorMasks == old(logicalProcessorMasks)
      ensures programRules == old(programRules) && ruleTemplates == old(ruleTemplates)
      ensures settings == old(settings) && isSaving == old(isSaving)
      ensures scheduledSaves == old(scheduledSaves) && writtenSaves == old(writtenSaves)
    {
      hasMigrated := loadedConfigVersion < ConfigVersion;
      if loadedConfigVersion < 2 {
        var i := 0;
        while i < |defaults|
          invariant 0 <= i <= |defaults|
          invariant Migrated(logicalProcessorMasks, defaults[i..]) == Migrated(old(logicalProcessorMasks), defaults)
          invariant programRules == old(programRules) && ruleTemplates == old(ruleTemplates)
          invariant settings == old(settings) && isSaving == old(isSaving)
          invariant scheduledSaves == old(scheduledSaves) && writtenSaves == old(writtenSaves)
        {
          assert defaults[i..][1..] == defaults[i + 1..];
          var present := HasNameLoop(logicalProcessorMasks, defaults[i].name);
          if !present {
            logicalProcessorMasks := logicalProcessorMasks + [FromDefault(defaults[i])];
          }
          i := i + 1;
        }
      }
    }

    /** The Any(existing => existing.Name == name) scan of MigrateConfig. */
    static method HasNameLoop(masks: seq<LogicalProcessorMask>, name: string) returns (found: bool)
      ensures found <==> HasName(masks, name)
    {
      found := false;
      var i := 0;
      while i < |masks| && !found
        invariant 0 <= i <= |masks|
        invariant found <==> exists j :: 0 <= j < i && masks[j].name == name
      {
        found := masks[i].name == name;
        i := i + 1;
      }
    }

    /**
     * The AppConfig constructor. A second construction fails with InvalidOperationException; otherwise
     * the defaults are appended when asked for, the migration runs, a save is scheduled if either
     * changed anything, and the three collections get their save handler.
     */
    static method Create(lifetime: ConfigLifetime, masks: seq<LogicalProcessorMask>, rules: seq<ProgramRule>,
                         templates: seq<RuleTemplate>, settings: Settings, generateDefaultMasks: bool,
                         defaults: seq<DefaultMask>, isFirstRun: bool, configVersion: int)
      returns (r: Result<AppConfig>)
      modifies lifetime
      ensures lifetime.constructed
      ensures old(lifetime.constructed) ==> r == Err(InvalidOperation)
      ensures !old(lifetime.constructed) ==> r.Ok? && fresh(r.value)
      ensures r.Ok? ==>
        var c := r.value;
        var loaded := masks + (if generateDefaultMasks then FromDefaults(defaults) else []);
        && c.logicalProcessorMasks == (if configVersion < 2 then Migrated(loaded, defaults) else loaded)
        && c.programRules == rules && c.ruleTemplates == templates && c.settings == settings
        && c.isFirstRun == isFirstRun
        && c.isSaving == ((generateDefaultMasks && |defaults| > 0) || configVersion < ConfigVersion)
        && c.scheduledSaves == (if c.isSaving then 1 else 0) && c.writtenSaves == 0
        && c.observable.collectionUnsubscribeActions == [c.masksChanged, c.rulesChanged, c.templatesChanged]
        && c.masksChanged.saveHandlers == 1 && c.rulesChanged.saveHandlers == 1
        && c.templatesChanged.saveHandlers == 1
    {
      if lifetime.constructed {
        return Err(InvalidOperation);
      }
      lifetime.constructed := true;
      var c := new AppConfig.Init(masks, rules, templates, settings, isFirstRun);
      var hasChangesToSave := false;
      if generateDefaultMasks {
        var i := 0;
        while i < |defaults|
          invariant 0 <= i <= |defaults|
          invariant c.logicalProcessorMasks == masks + FromDefaults(defaults[..i])
          invariant c.programRules == rules && c.ruleTemplates == templates && c.settings == settings
          invariant !c.isSaving && c.scheduledSaves == 0 && c.writtenSaves == 0
          invariant lifetime.constructed && c.observable.collectionUnsubscribeActions == []
          invariant c.masksChanged.saveHandlers == 0 && c.rulesChanged.saveHandlers == 0
          invariant c.templatesChanged.saveHandlers == 0
        {
          assert defaults[..i + 1] == defaults[..i] + [defaults[i]];
          FromDefaultsSnoc(defaults[..i], defaults[i]);
          c.logicalProcessorMasks := c.logicalProcessorMasks + [FromDefault(defaults[i])];
          i := i + 1;
        }
        assert defaults[..i] == defaults;
        if |defaults| > 0 {
          hasChangesToSave := true;
        }
      }
      assert c.logicalProcessorMasks == masks + (if generateDefaultMasks then FromDefaults(defaults) else []);
      var migrated := c.MigrateConfig(configVersion, defaults);
      if migrated {
        hasChangesToSave := true;
      }
      if hasChangesToSave {
        c.Save();
      }
      c.observable.SaveOnCollectionChanged(c.masksChanged);
      c.observable.SaveOnCollectionChanged(c.rulesChanged);
      c.observable.SaveOnCollectionChanged(c.templatesChanged);
      r := Ok(c);
    }
  }

  /** FromDefaults of a longer prefix adds the one new mask. */
  lemma {:induction false} FromDefaultsSnoc(ds: seq<DefaultMask>, d: DefaultMask)
    ensures FromDefaults(ds + [d]) == FromDefaults(ds) + [FromDefault(d)]
  {
    if ds != [] {
      assert (ds + [d])[1..] == ds[1..] + [d];
      FromDefaultsSnoc(ds[1..], d);
    }
  }

  /** Migration only appends: the masks that were there stay, in place. */
  lemma {:induction false} MigrationKeepsMasks(masks: seq<LogicalProcessorMask>, ds: seq<DefaultMask>)
    ensures |masks| <= |Migrated(masks, ds)|
    ensures Migrated(masks, ds)[..|masks|] == masks
    decreases |ds|
  {
    if ds != [] {
      if HasName(masks, ds[0].name) {
        MigrationKeepsMasks(masks, ds[1..]);
      } else {
        var next := masks + [FromDefault(ds[0])];
        MigrationKeepsMasks(next, ds[1..]);
        assert Migrated(masks, ds)[..|masks|] == Migrated(next, ds[1..])[..|next|][..|masks|];
      }
    }
  }

  /** After migration every default name is present. */
  lemma {:induction false} MigrationAddsEveryName(masks: seq<LogicalProcessorMask>, ds: seq<DefaultMask>, k: nat)
    requires k < |ds|
    ensures HasName(Migrated(masks, ds), ds[k].name)
    decreases |ds|
  {
    var next := if HasName(masks, ds[0].name) then masks else masks + [FromDefault(ds[0])];
    if k == 0 {
      var i :| 0 <= i < |next| && next[i].name == ds[0].name;
      MigrationKeepsMasks(next, ds[1..]);
      assert Migrated(masks, ds)[i] == next[i];
    } else {
      MigrationAddsEveryName(next, ds[1..], k - 1);
    }
  }

  /** Migration never makes two masks share a name. */
  lemma {:induction false} MigrationKeepsNamesDistinct(masks: seq<LogicalProcessorMask>, ds: seq<DefaultMask>)
    requires DistinctNames(masks)
    ensures DistinctNames(Migrated(masks, ds))
    decreases |ds|
  {
    if ds != [] {
      if HasName(masks, ds[0].name) {
        MigrationKeepsNamesDistinct(masks, ds[1..]);
      } else {
        var next := masks + [FromDefault(ds[0])];
        assert DistinctNames(next) by {
          forall i, j | 0 <= i < j < |next|
            ensures next[i].name != next[j].name
          {
            if j == |masks| {
              assert next[i] == masks[i];
            }
          }
        }
        MigrationKeepsNamesDistinct(next, ds[1..]);
      }
    }
  }

  /** What migration appends are masks made from defaults whose name was missing. */
  lemma {:induction false} MigrationAppendsOnlyMissingDefaults(masks: seq<LogicalProcessorMask>, ds: seq<DefaultMask>, i: nat)
    requires |masks| <= i < |Migrated(masks, ds)|
    ensures exists k :: 0 <= k < |ds| && Migrated(masks, ds)[i] == FromDefault(ds[k]) && !HasName(masks, ds[k].name)
    decreases |ds|
  {
    if HasName(masks, ds[0].name) {
      MigrationAppendsOnlyMissingDefaults(masks, ds[1..], i);
      var k :| 0 <= k < |ds[1..]| && Migrated(masks, ds[1..])[i] == FromDefault(ds[1..][k]) && !HasName(masks, ds[1..][k].name);
      assert ds[1..][k] == ds[k + 1];
    } else {
      var next := masks + [FromDefault(ds[0])];
      if i == |masks| {
        MigrationKeepsMasks(next, ds[1..]);
        assert Migrated(masks, ds)[i] == next[i];
      } else {
        MigrationAppendsOnlyMissingDefaults(next, ds[1..], i);
        var k :| 0 <= k < |ds[1..]| && Migrated(next, ds[1..])[i] == FromDefault(ds[1..][k]) && !HasName(next, ds[1..][k].name);
        assert ds[1..][k] == ds[k + 1];
        assert forall j :: 0 <= j < |masks| ==> next[j] == masks[j];
        assert !HasName(masks, ds[k + 1].name);
        assert Migrated(masks, ds)[i] == FromDefault(ds[k + 1]);
      }
    }
  }

  /**
   * OnObservableConfigCollectionChanged: every change saves the config; a removal disposes the
   * removed item when it is a config object (removed is null otherwise); any action other than
   * Add or Remove fails with NotImplementedException, after the save.
   */
  method OnObservableConfigCollectionChanged(config: AppConfig, action: CollectionAction, removed: ObservableConfigObject?)
    returns (failure: Option<Failure>)
    modifies config, removed, if removed == null then [] else removed.collectionUnsubscribeActions
    ensures config.isSaving
    ensures config.scheduledSaves == old(config.scheduledSaves) + (if old(config.isSaving) then 0 else 1)
    ensures config.logicalProcessorMasks == old(config.logicalProcessorMasks)
    ensures config.programRules == old(config.programRules) && config.ruleTemplates == old(config.ruleTemplates)
    ensures failure == (if action == Add || action == Remove then None else Some(NotImplemented))
    ensures action == Remove && removed != null ==> removed.collectionUnsubscribeActions == []
    ensures action != Remove && removed != null ==>
      removed.collectionUnsubscribeActions == old(removed.collectionUnsubscribeActions)
  {
    config.Save();
    failure := None;
    if action == Remove {
      if removed != null {
        removed.Dispose();
      }
    } else if action != Add {
      failure := Some(NotImplemented);
    }
  }

  /** OnPropertyChanged: a changed property saves the config. */
  method OnPropertyChanged(config: AppConfig)
    modifies config
    ensures config.isSaving
    ensures config.scheduledSaves == old(config.scheduledSaves) + (if old(config.isSaving) then 0 else 1)
  {
    config.Save();
  }
}

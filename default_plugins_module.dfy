/**
 * The content create hook that DefaultPluginsModule taps: on a config
 * document it makes sure every plugin flagged `isAddedByDefault` is enabled.
 *
 * The registry query `plugins.find({ isAddedByDefault: true })` is a foreign
 * asynchronous call; its result enters here as the sequence of the returned
 * descriptors' names, in the order the registry returned them.
 *
 * Two versions of the callback are modelled: `CreateHookAsWritten`, with the
 * guard on the query result exactly as the module has it, and `PreInsertHook`,
 * the behaviour the module's tests expect.
 */
module DefaultPluginsModule {
  import opened EnabledPlugins

  /** The document type whose inserts are enriched. */
  const ConfigType: string := "config"

  /** A document on its way into content storage, mutated in place by the hook. */
  class Document {
    /** The `_type` attribute. */
    var docType: string
    /** The `_enabledPlugins` attribute; `None` when it is absent. */
    var enabledPlugins: Option<seq<string>>

    constructor (docType: string, enabledPlugins: Option<seq<string>>)
      ensures this.docType == docType && this.enabledPlugins == enabledPlugins
    {
      this.docType := docType;
      this.enabledPlugins := enabledPlugins;
    }

    /** Creates an empty `_enabledPlugins` when the attribute is absent. */
    method InitEnabledPlugins()
      modifies this
      ensures docType == old(docType)
      ensures enabledPlugins == Some(Initialised(old(enabledPlugins)))
    {
      if enabledPlugins.None? {
        enabledPlugins := Some([]);
      }
    }

    /**
     * Walks the default names in order and pushes each one the list does not
     * include yet.
     */
    method AppendDefaults(defaults: seq<string>)
      requires enabledPlugins.Some?
      modifies this
      ensures docType == old(docType)
      ensures enabledPlugins == Some(Merge(old(enabledPlugins).value, defaults))
    {
      var i := 0;
      while i < |defaults|
        invariant 0 <= i <= |defaults|
        invariant docType == old(docType)
        invariant enabledPlugins == Some(Merge(old(enabledPlugins).value, defaults[..i]))
      {
        var name := defaults[i];
        if name !in enabledPlugins.value {
          enabledPlugins := Some(enabledPlugins.value + [name]);
        }
        assert defaults[..i + 1][..i] == defaults[..i];
        i := i + 1;
      }
      assert defaults[..|defaults|] == defaults;
    }
  }

  /** The list `InitEnabledPlugins` leaves behind: the existing one, or an empty one. */
  function Initialised(enabledPlugins: Option<seq<string>>): (initialised: seq<string>)
    ensures enabledPlugins == Some(initialised) || (enabledPlugins == None && initialised == [])
  {
    match enabledPlugins
    case Some(existing) => existing
    case None => []
  }

  /**
   * `_enabledPlugins` after the callback as the module writes it: it returns
   * early unless the type is config AND the registry returned NO default.
   * The list exists afterwards exactly when it existed before or that
   * early return was not taken.
   */
  function AfterCreateHookAsWritten(docType: string, enabledPlugins: Option<seq<string>>,
                                    defaults: seq<string>): (after: Option<seq<string>>)
    ensures after.None? <==> enabledPlugins.None? && (docType != ConfigType || |defaults| != 0)
  {
    if docType != ConfigType then enabledPlugins
    else if |defaults| != 0 then enabledPlugins
    else Some(Merge(Initialised(enabledPlugins), defaults))
  }

  /**
   * `_enabledPlugins` after the callback the module's test suite expects: it
   * returns early unless the schema is config and the registry returned at
   * least one default.
   * The list exists afterwards exactly when it existed before or defaults
   * were enabled.
   */
  function AfterPreInsertHook(schemaName: string, enabledPlugins: Option<seq<string>>,
                              defaults: seq<string>): (after: Option<seq<string>>)
    ensures after.None? <==> enabledPlugins.None? && (schemaName != ConfigType || |defaults| == 0)
  {
    if schemaName != ConfigType then enabledPlugins
    else if |defaults| == 0 then enabledPlugins
    else Some(Merge(Initialised(enabledPlugins), defaults))
  }

  /** The tapped callback with the module's own guard. */
  method CreateHookAsWritten(data: Document, defaults: seq<string>)
    modifies data
    ensures data.docType == old(data.docType)
    ensures data.enabledPlugins == AfterCreateHookAsWritten(old(data.docType), old(data.enabledPlugins), defaults)
  {
    if data.docType != ConfigType {
      return;
    }
    if |defaults| != 0 {
      return;
    }
    data.InitEnabledPlugins();
    data.AppendDefaults(defaults);
  }

  /** The tapped callback as the tests expect it, typed by the hook context's schema name. */
  method PreInsertHook(data: Document, schemaName: string, defaults: seq<string>)
    modifies data
    ensures data.docType == old(data.docType)
    ensures data.enabledPlugins == AfterPreInsertHook(schemaName, old(data.enabledPlugins), defaults)
  {
    if schemaName != ConfigType {
      return;
    }
    if |defaults| == 0 {
      return;
    }
    data.InitEnabledPlugins();
    data.AppendDefaults(defaults);
  }

  /** Neither version touches a document that is not of the config type. */
  lemma NonConfigUntouched(docType: string, enabledPlugins: Option<seq<string>>, defaults: seq<string>)
    requires docType != ConfigType
    ensures AfterCreateHookAsWritten(docType, enabledPlugins, defaults) == enabledPlugins
    ensures AfterPreInsertHook(docType, enabledPlugins, defaults) == enabledPlugins
  {
  }

  /**
   * As written, the callback never adds a name: the list is either left as it
   * was or, when absent, replaced by an empty one.
   */
  lemma AsWrittenNeverAppends(docType: string, enabledPlugins: Option<seq<string>>, defaults: seq<string>)
    ensures var after := AfterCreateHookAsWritten(docType, enabledPlugins, defaults);
            after == enabledPlugins || (enabledPlugins == None && after == Some([]))
  {
  }

  /**
   * As written, any non-empty registry result makes the callback return
   * early, whatever the document: no default is ever enabled.
   */
  lemma AsWrittenIgnoresDefaults(docType: string, enabledPlugins: Option<seq<string>>, defaults: seq<string>)
    requires |defaults| > 0
    ensures AfterCreateHookAsWritten(docType, enabledPlugins, defaults) == enabledPlugins
  {
  }

  /** As written, a config document without a list and with no defaults gains an empty list. */
  lemma AsWrittenCreatesEmptyList()
    ensures AfterCreateHookAsWritten(ConfigType, None, []) == Some([])
    ensures AfterPreInsertHook(ConfigType, None, []) == None
  {
  }

  /**
   * The input that shows the inverted guard: a config document without a
   * list and one default. As written nothing happens; the tests expect the
   * default to be enabled.
   */
  lemma AsWrittenSkipsDefaults()
    ensures AfterCreateHookAsWritten(ConfigType, None, ["plugin-a"]) == None
    ensures AfterPreInsertHook(ConfigType, None, ["plugin-a"]) == Some(["plugin-a"])
  {
    var defaults := ["plugin-a"];
    assert defaults[..0] == [];
    assert Merge([], defaults) == [] + ["plugin-a"];
    assert [] + ["plugin-a"] == ["plugin-a"];
    assert Initialised(None) == [];
    assert AfterPreInsertHook(ConfigType, None, defaults) == Some(Merge([], defaults));
  }

  /** With no default plugins the list is neither changed nor created. */
  lemma NoDefaultsUntouched(schemaName: string, enabledPlugins: Option<seq<string>>)
    ensures AfterPreInsertHook(schemaName, enabledPlugins, []) == enabledPlugins
  {
  }

  /**
   * On a config document with at least one default, the list exists
   * afterwards, keeps its old entries as a prefix in their order, is followed
   * by exactly the fresh defaults, contains every default, and stays free of
   * duplicates when it was.
   */
  lemma {:induction false} PreInsertEnablesDefaults(enabledPlugins: Option<seq<string>>, defaults: seq<string>)
    requires |defaults| > 0
    ensures var after := AfterPreInsertHook(ConfigType, enabledPlugins, defaults);
            var before := Initialised(enabledPlugins);
            && after.Some?
            && after.value == before + Fresh(before, defaults)
            && before <= after.value
            && (forall x :: x in after.value <==> x in before || x in defaults)
            && (NoDuplicates(before) ==> NoDuplicates(after.value))
  {
    var before := Initialised(enabledPlugins);
    MergeIsListThenFresh(before, defaults);
    MergeKeepsPrefix(before, defaults);
    MergeMembership(before, defaults);
    if NoDuplicates(before) {
      MergeNoDuplicates(before, defaults);
    }
  }

  /** When every default is already enabled the callback changes nothing. */
  lemma {:induction false} PreInsertAllPresentUnchanged(schemaName: string, list: seq<string>, defaults: seq<string>)
    requires forall x :: x in defaults ==> x in list
    ensures AfterPreInsertHook(schemaName, Some(list), defaults) == Some(list)
  {
    MergeAllPresent(list, defaults);
  }

  /** Running the callback twice with the same registry result is the same as running it once. */
  lemma {:induction false} PreInsertIdempotent(schemaName: string, enabledPlugins: Option<seq<string>>, defaults: seq<string>)
    ensures var once := AfterPreInsertHook(schemaName, enabledPlugins, defaults);
            AfterPreInsertHook(schemaName, once, defaults) == once
  {
    if schemaName == ConfigType && |defaults| != 0 {
      MergeIdempotent(Initialised(enabledPlugins), defaults);
    }
  }

  /** An existing empty list ends up the same as an absent one. */
  lemma EmptyListLikeAbsent(defaults: seq<string>)
    requires |defaults| > 0
    ensures AfterPreInsertHook(ConfigType, Some([]), defaults) == AfterPreInsertHook(ConfigType, None, defaults)
  {
  }

  /** Existing entries keep their order and a new default goes after them. */
  lemma PreInsertKeepsOrderExample()
    ensures AfterPreInsertHook(ConfigType, Some(["plugin-b", "plugin-a"]), ["plugin-c"])
            == Some(["plugin-b", "plugin-a", "plugin-c"])
  {
    var defaults := ["plugin-c"];
    assert defaults[..0] == [];
    assert "plugin-c" !in ["plugin-b", "plugin-a"];
    assert Merge(["plugin-b", "plugin-a"], defaults) == ["plugin-b", "plugin-a"] + ["plugin-c"];
    assert ["plugin-b", "plugin-a"] + ["plugin-c"] == ["plugin-b", "plugin-a", "plugin-c"];
    assert AfterPreInsertHook(ConfigType, Some(["plugin-b", "plugin-a"]), defaults)
        == Some(Merge(["plugin-b", "plugin-a"], defaults));
  }

  /** A default already enabled is not added a second time. */
  lemma PreInsertNoDuplicateExample()
    ensures AfterPreInsertHook(ConfigType, Some(["plugin-a"]), ["plugin-a", "plugin-b"])
            == Some(["plugin-a", "plugin-b"])
  {
    var defaults := ["plugin-a", "plugin-b"];
    assert defaults[..1] == ["plugin-a"] && defaults[..1][..0] == [];
    assert Merge(["plugin-a"], defaults[..1]) == ["plugin-a"];
    assert "plugin-b" !in ["plugin-a"];
    assert Merge(["plugin-a"], defaults) == ["plugin-a"] + ["plugin-b"];
    assert ["plugin-a"] + ["plugin-b"] == ["plugin-a", "plugin-b"];
    assert AfterPreInsertHook(ConfigType, Some(["plugin-a"]), defaults) == Some(Merge(["plugin-a"], defaults));
  }
}

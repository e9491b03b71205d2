/** The generator settings store (useGeneratorSettings): the reconciliation
    of persisted settings against the seeded defaults, and the object that
    owns the `settings` state cell with its select, update, get and reset
    operations. Browser storage is reduced to the value it yields: nothing,
    something unparseable, or a parsed object whose fields may be missing. */
module SettingsStore {
  import opened Seqs
  import opened GeneratorTypes

  /** A `Partial<TypeConfig>`: the fields a spread `{ ...c, ...u }` copies
      over `c` are the ones present in `u`. A persisted type config has the
      same shape, since the stored JSON may lack any field. */
  datatype ConfigUpdate = ConfigUpdate(advancedOptions: Option<OptionMap>, prefix: Option<string>, suffix: Option<string>)

  /** `{ ...c, ...u }`: each field present in `u` replaces the field of `c`
      wholesale; `advancedOptions` is not merged key by key. */
  function Merge(c: TypeConfig, u: ConfigUpdate): TypeConfig
  {
    TypeConfig(u.advancedOptions.GetOr(c.advancedOptions), u.prefix.GetOr(c.prefix), u.suffix.GetOr(c.suffix))
  }

  /** The update that carries every field of `c`. */
  function Full(c: TypeConfig): ConfigUpdate
  {
    ConfigUpdate(Some(c.advancedOptions), Some(c.prefix), Some(c.suffix))
  }

  /** An update with no field changes nothing; a full update replaces
      everything; applying the same update twice is applying it once. */
  lemma MergeLaws(c: TypeConfig, d: TypeConfig, u: ConfigUpdate)
    ensures Merge(c, ConfigUpdate(None, None, None)) == c
    ensures Merge(c, Full(d)) == d
    ensures Merge(Merge(c, u), u) == Merge(c, u)
    ensures u.advancedOptions.Some? ==> Merge(c, u).advancedOptions == u.advancedOptions.value
  {
  }

  /** One language's settings as `JSON.parse` may return them: a missing
      object, a missing `selectedType`, a missing `typeConfigs`. */
  datatype StoredLanguage = StoredLanguage(selectedType: Option<LanguageType>, typeConfigs: Option<map<LanguageType, ConfigUpdate>>)

  /** What the initial state reads from storage. `Malformed` stands for
      every path that ends in the catch block (a parse error, or a parsed
      value whose members cannot be read); `NothingStored` for a missing or
      empty item. */
  datatype Stored =
    | NothingStored
    | Malformed
    | Parsed(java: Option<StoredLanguage>, typescript: Option<StoredLanguage>, csharp: Option<StoredLanguage>)
  {
    function Of(l: Language): Option<StoredLanguage>
      requires Parsed?
    {
      match l
      case Java => java
      case TypeScript => typescript
      case CSharp => csharp
    }
  }

  /** The config a reconciled type ends up with: the default, overlaid by the
      loaded fields when the loaded data has an entry for the same type. */
  function ReconciledConfig(d: TypeConfig, loaded: Option<StoredLanguage>, t: LanguageType): TypeConfig
  {
    if loaded.Some? && loaded.value.typeConfigs.Some? && t in loaded.value.typeConfigs.value
    then Merge(d, loaded.value.typeConfigs.value[t])
    else d
  }

  /** ensureLanguageSettings against a given default: the default's types,
      each reconciled, and the loaded selectedType if present. */
  function Reconcile(defaults: LanguageSettings, loaded: Option<StoredLanguage>): (r: LanguageSettings)
  {
    LanguageSettings(
      if loaded.Some? then loaded.value.selectedType.GetOr(defaults.selectedType) else defaults.selectedType,
      map t | t in defaults.typeConfigs :: ReconciledConfig(defaults.typeConfigs[t], loaded, t))
  }

  /** ensureLanguageSettings(languageSettings, language). */
  function ReconcileLanguage(loaded: Option<StoredLanguage>, l: Language): LanguageSettings
  {
    Reconcile(DefaultGeneratorSettings.Of(l), loaded)
  }

  /** The lazy initial state of the hook. */
  function InitialSettings(stored: Stored): (r: GeneratorSettings)
    ensures !stored.Parsed? ==> r == DefaultGeneratorSettings
  {
    match stored
    case Parsed(java, typescript, csharp) =>
      GeneratorSettings(ReconcileLanguage(java, Java), ReconcileLanguage(typescript, TypeScript), ReconcileLanguage(csharp, CSharp))
    case _ => DefaultGeneratorSettings
  }

  /** ensureLanguageSettings as the source computes it: copy the default
      configs, then visit every loaded type and overlay it on the copy when
      the copy has that type. */
  method EnsureLanguageSettings(loaded: Option<StoredLanguage>, defaults: LanguageSettings) returns (r: LanguageSettings)
    ensures r == Reconcile(defaults, loaded)
  {
    var typeConfigs := defaults.typeConfigs;
    if loaded.Some? && loaded.value.typeConfigs.Some? {
      var lc := loaded.value.typeConfigs.value;
      var pending := lc.Keys;
      while pending != {}
        invariant pending <= lc.Keys
        invariant typeConfigs.Keys == defaults.typeConfigs.Keys
        invariant forall t :: t in typeConfigs ==>
                    typeConfigs[t] == if t in lc && t !in pending then Merge(defaults.typeConfigs[t], lc[t]) else defaults.typeConfigs[t]
        decreases pending
      {
        var t :| t in pending;
        if t in typeConfigs {
          typeConfigs := typeConfigs[t := Merge(typeConfigs[t], lc[t])];
        }
        pending := pending - {t};
      }
    }
    var selected := if loaded.Some? then loaded.value.selectedType.GetOr(defaults.selectedType) else defaults.selectedType;
    r := LanguageSettings(selected, typeConfigs);
  }

  // ---------------------------------------------------------------------
  // Properties of the reconciliation

  /** The reconciled configs have exactly the default's types: a type only
      the loaded data has is dropped, a type the loaded data lacks gets the
      default config, and a type both have gets the loaded fields over the
      default ones. */
  lemma ReconcileShape(defaults: LanguageSettings, loaded: Option<StoredLanguage>, t: LanguageType)
    ensures Reconcile(defaults, loaded).typeConfigs.Keys == defaults.typeConfigs.Keys
    ensures t in defaults.typeConfigs && (loaded.None? || loaded.value.typeConfigs.None? || t !in loaded.value.typeConfigs.value) ==>
              Reconcile(defaults, loaded).typeConfigs[t] == defaults.typeConfigs[t]
    ensures t in defaults.typeConfigs && loaded.Some? && loaded.value.typeConfigs.Some? && t in loaded.value.typeConfigs.value ==>
              Reconcile(defaults, loaded).typeConfigs[t] == Merge(defaults.typeConfigs[t], loaded.value.typeConfigs.value[t])
  {
  }

  /** The selected type is the loaded one when present, whatever it is: it
      is not checked against the language's variants. */
  lemma ReconcileSelectedType(defaults: LanguageSettings, loaded: Option<StoredLanguage>)
    ensures loaded.Some? && loaded.value.selectedType.Some? ==>
              Reconcile(defaults, loaded).selectedType == loaded.value.selectedType.value
    ensures loaded.None? || loaded.value.selectedType.None? ==>
              Reconcile(defaults, loaded).selectedType == defaults.selectedType
  {
  }

  /** For the real defaults, the reconciled types are the listed variants
      of the language. */
  lemma ReconciledTypesListed(loaded: Option<StoredLanguage>, l: Language)
    ensures ReconcileLanguage(loaded, l).typeConfigs.Keys == ListedTypes(l)
  {
    DefaultSettingsShape(l);
  }

  /** With nothing loaded for a language, it gets its defaults. */
  lemma ReconcileNothing(defaults: LanguageSettings)
    ensures Reconcile(defaults, None) == defaults
    ensures Reconcile(defaults, Some(StoredLanguage(None, None))) == defaults
  {
  }

  /** The serialised form of a language's settings: every field present. */
  function Serialize(ls: LanguageSettings): StoredLanguage
  {
    StoredLanguage(Some(ls.selectedType), Some(map t | t in ls.typeConfigs :: Full(ls.typeConfigs[t])))
  }

  /** What the persistence effect writes for the whole aggregate. */
  function SerializeAll(s: GeneratorSettings): Stored
  {
    Parsed(Some(Serialize(s.java)), Some(Serialize(s.typescript)), Some(Serialize(s.csharp)))
  }

  /** Reconciling settings that have exactly the default's types returns them
      unchanged. */
  lemma ReconcileSerialized(defaults: LanguageSettings, ls: LanguageSettings)
    requires ls.typeConfigs.Keys == defaults.typeConfigs.Keys
    ensures Reconcile(defaults, Some(Serialize(ls))) == ls
  {
    var r := Reconcile(defaults, Some(Serialize(ls)));
    forall t | t in r.typeConfigs
      ensures r.typeConfigs[t] == ls.typeConfigs[t]
    {
      MergeLaws(defaults.typeConfigs[t], ls.typeConfigs[t], ConfigUpdate(None, None, None));
    }
  }

  /** Reconciliation is idempotent: reconciling an already reconciled value
      (as persisted) gives it back. */
  lemma ReconcileIdempotent(defaults: LanguageSettings, loaded: Option<StoredLanguage>)
    ensures Reconcile(defaults, Some(Serialize(Reconcile(defaults, loaded)))) == Reconcile(defaults, loaded)
  {
    ReconcileShape(defaults, loaded, defaults.selectedType);
    ReconcileSerialized(defaults, Reconcile(defaults, loaded));
  }

  /** Settings whose every language has exactly its listed variants. */
  predicate WellShaped(s: GeneratorSettings)
  {
    forall l :: s.Of(l).typeConfigs.Keys == ListedTypes(l)
  }

  /** Persisting well-shaped settings and loading them again gives them back. */
  lemma PersistRoundTrip(s: GeneratorSettings)
    requires WellShaped(s)
    ensures InitialSettings(SerializeAll(s)) == s
  {
    forall l: Language
      ensures ReconcileLanguage(Some(Serialize(s.Of(l))), l) == s.Of(l)
    {
      DefaultSettingsShape(l);
      ReconcileSerialized(DefaultGeneratorSettings.Of(l), s.Of(l));
    }
    assert ReconcileLanguage(Some(Serialize(s.Of(Java))), Java) == s.java;
    assert ReconcileLanguage(Some(Serialize(s.Of(TypeScript))), TypeScript) == s.typescript;
    assert ReconcileLanguage(Some(Serialize(s.Of(CSharp))), CSharp) == s.csharp;
  }

  /** The loaded settings reconcile to well-shaped settings. */
  lemma InitialSettingsWellShaped(stored: Stored)
    ensures WellShaped(InitialSettings(stored))
  {
    forall l: Language
      ensures InitialSettings(stored).Of(l).typeConfigs.Keys == ListedTypes(l)
    {
      DefaultSettingsShape(l);
      if stored.Parsed? {
        ReconciledTypesListed(stored.Of(l), l);
      }
    }
  }

  /** A loaded `advancedOptions` replaces the default map wholesale, so an
      option key that no table of the pair knows survives loading. */
  lemma StaleOptionRetained(l: Language, t: LanguageType, m: OptionMap, k: OptionKey)
    requires t in ListedTypes(l) && k.OtherKey? && CanonicalKey(k) && k in m
    ensures var r := ReconcileLanguage(Some(StoredLanguage(None, Some(map[t := ConfigUpdate(Some(m), None, None)]))), l);
            && t in r.typeConfigs
            && r.typeConfigs[t].advancedOptions == m
            && k in r.typeConfigs[t].advancedOptions
            && k !in DefaultOptions(l, t)
            && k !in KeySet(OptionLabels(l, t))
  {
    DefaultSettingsShape(l);
    ReconcileShape(DefaultGeneratorSettings.Of(l), Some(StoredLanguage(None, Some(map[t := ConfigUpdate(Some(m), None, None)]))), t);
    UnknownKeyInNoTable(l, t, k);
  }

  /** Loading does not overlay option keys on the defaults: a default key
      missing from a loaded `advancedOptions` is missing after the load,
      and the defaults' own value for it is lost. */
  lemma DefaultOptionDroppedOnLoad(l: Language, t: LanguageType, m: OptionMap, k: OptionKey)
    requires t in ListedTypes(l) && k in DefaultOptions(l, t) && k !in m
    ensures var r := ReconcileLanguage(Some(StoredLanguage(None, Some(map[t := ConfigUpdate(Some(m), None, None)]))), l);
            && t in r.typeConfigs
            && k !in r.typeConfigs[t].advancedOptions
            && k in DefaultGeneratorSettings.Of(l).typeConfigs[t].advancedOptions
  {
    DefaultSettingsShape(l);
    ReconcileShape(DefaultGeneratorSettings.Of(l), Some(StoredLanguage(None, Some(map[t := ConfigUpdate(Some(m), None, None)]))), t);
  }

  /** A loaded variant that the defaults do not seed is dropped, even a
      variant of the language such as 'pojo'. */
  lemma UnseededVariantDropped(u: ConfigUpdate)
    ensures Pojo !in ReconcileLanguage(Some(StoredLanguage(None, Some(map[Pojo := u]))), Java).typeConfigs
  {
    PojoNotSeeded();
    ReconciledTypesListed(Some(StoredLanguage(None, Some(map[Pojo := u]))), Java);
  }

  // ---------------------------------------------------------------------
  // The transitions of the settings state cell

  /** updateSelectedType(l, t). */
  function SelectType(s: GeneratorSettings, l: Language, t: LanguageType): (r: GeneratorSettings)
    ensures r.Of(l).selectedType == t
    ensures r.Of(l).typeConfigs == s.Of(l).typeConfigs
    ensures forall l' :: l' != l ==> r.Of(l') == s.Of(l')
  {
    s.With(l, s.Of(l).(selectedType := t))
  }

  /** getTypeConfig(l, t): the stored config, or the default when the
      language has none for that type. */
  function TypeConfigOf(s: GeneratorSettings, l: Language, t: LanguageType): (c: TypeConfig)
    ensures t !in s.Of(l).typeConfigs ==> c == DefaultTypeConfig(l, t)
  {
    if t in s.Of(l).typeConfigs then s.Of(l).typeConfigs[t] else DefaultTypeConfig(l, t)
  }

  /** updateTypeConfig(l, t, u): the current config (or the default) with
      the fields of `u` spread over it. */
  function UpdateConfig(s: GeneratorSettings, l: Language, t: LanguageType, u: ConfigUpdate): (r: GeneratorSettings)
    ensures r.Of(l).typeConfigs.Keys == s.Of(l).typeConfigs.Keys + {t}
    ensures r.Of(l).selectedType == s.Of(l).selectedType
    ensures forall t' :: t' in s.Of(l).typeConfigs && t' != t ==> r.Of(l).typeConfigs[t'] == s.Of(l).typeConfigs[t']
    ensures forall l' :: l' != l ==> r.Of(l') == s.Of(l')
  {
    var ls := s.Of(l);
    s.With(l, ls.(typeConfigs := ls.typeConfigs[t := Merge(TypeConfigOf(s, l, t), u)]))
  }

  /** resetLanguageSettings(l). */
  function ResetLanguage(s: GeneratorSettings, l: Language): (r: GeneratorSettings)
    ensures r.Of(l) == DefaultGeneratorSettings.Of(l)
    ensures forall l' :: l' != l ==> r.Of(l') == s.Of(l')
  {
    s.With(l, DefaultGeneratorSettings.Of(l))
  }

  /** resetTypeSettings(l, t). */
  function ResetType(s: GeneratorSettings, l: Language, t: LanguageType): (r: GeneratorSettings)
    ensures r.Of(l).typeConfigs.Keys == s.Of(l).typeConfigs.Keys + {t}
    ensures r.Of(l).typeConfigs[t] == DefaultTypeConfig(l, t)
    ensures r.Of(l).selectedType == s.Of(l).selectedType
    ensures forall t' :: t' in s.Of(l).typeConfigs && t' != t ==> r.Of(l).typeConfigs[t'] == s.Of(l).typeConfigs[t']
    ensures forall l' :: l' != l ==> r.Of(l') == s.Of(l')
  {
    var ls := s.Of(l);
    s.With(l, ls.(typeConfigs := ls.typeConfigs[t := DefaultTypeConfig(l, t)]))
  }

  /** Reading a config back after an update gives the update spread over
      what was read before; other reads are unaffected. */
  lemma UpdateThenGet(s: GeneratorSettings, l: Language, t: LanguageType, u: ConfigUpdate, l': Language, t': LanguageType)
    ensures TypeConfigOf(UpdateConfig(s, l, t, u), l, t) == Merge(TypeConfigOf(s, l, t), u)
    ensures (l', t') != (l, t) ==> TypeConfigOf(UpdateConfig(s, l, t, u), l', t') == TypeConfigOf(s, l', t')
  {
  }

  /** Reading a config after resetting it gives the default, whether or not
      the language had a config for that type before. */
  lemma ResetTypeThenGet(s: GeneratorSettings, l: Language, t: LanguageType, l': Language, t': LanguageType)
    ensures TypeConfigOf(ResetType(s, l, t), l, t) == DefaultTypeConfig(l, t)
    ensures (l', t') != (l, t) ==> TypeConfigOf(ResetType(s, l, t), l', t') == TypeConfigOf(s, l', t')
  {
  }

  /** A config for an unseeded variant can be updated, but it is dropped on
      the next load: the update does not survive persistence. */
  lemma UnseededUpdateLostOnReload(u: ConfigUpdate)
    ensures Pojo in UpdateConfig(DefaultGeneratorSettings, Java, Pojo, u).java.typeConfigs
    ensures Pojo !in InitialSettings(SerializeAll(UpdateConfig(DefaultGeneratorSettings, Java, Pojo, u))).java.typeConfigs
  {
    var s := UpdateConfig(DefaultGeneratorSettings, Java, Pojo, u);
    ReconciledTypesListed(Some(Serialize(s.java)), Java);
    PojoNotSeeded();
  }

  /** The state cell of the hook. */
  class GeneratorSettingsStore {
    var settings: GeneratorSettings

    /** The lazy initialiser: defaults unless storage yields a parsed
        object, else each language reconciled on its own. */
    constructor(stored: Stored)
      ensures settings == InitialSettings(stored)
      ensures WellShaped(settings)
    {
      InitialSettingsWellShaped(stored);
      if stored.Parsed? {
        var java := EnsureLanguageSettings(stored.java, DefaultGeneratorSettings.java);
        var typescript := EnsureLanguageSettings(stored.typescript, DefaultGeneratorSettings.typescript);
        var csharp := EnsureLanguageSettings(stored.csharp, DefaultGeneratorSettings.csharp);
        settings := GeneratorSettings(java, typescript, csharp);
      } else {
        settings := DefaultGeneratorSettings;
      }
    }

    function GetSelectedType(l: Language): (t: LanguageType)
      reads this
      ensures t == settings.Of(l).selectedType
    {
      settings.Of(l).selectedType
    }

    function GetTypeConfig(l: Language, t: LanguageType): (c: TypeConfig)
      reads this
      ensures c == TypeConfigOf(settings, l, t)
    {
      TypeConfigOf(settings, l, t)
    }

    method UpdateSelectedType(l: Language, t: LanguageType)
      modifies this
      ensures settings == SelectType(old(settings), l, t)
      ensures GetSelectedType(l) == t
      ensures forall l', t' :: GetTypeConfig(l', t') == old(GetTypeConfig(l', t'))
    {
      settings := SelectType(settings, l, t);
    }

    method UpdateTypeConfig(l: Language, t: LanguageType, u: ConfigUpdate)
      modifies this
      ensures settings == UpdateConfig(old(settings), l, t, u)
      ensures GetTypeConfig(l, t) == Merge(old(GetTypeConfig(l, t)), u)
      ensures GetSelectedType(l) == old(GetSelectedType(l))
    {
      UpdateThenGet(settings, l, t, u, l, t);
      settings := UpdateConfig(settings, l, t, u);
    }

    method ResetSettings()
      modifies this
      ensures settings == DefaultGeneratorSettings
    {
      settings := DefaultGeneratorSettings;
    }

    method ResetLanguageSettings(l: Language)
      modifies this
      ensures settings == ResetLanguage(old(settings), l)
    {
      settings := ResetLanguage(settings, l);
    }

    method ResetTypeSettings(l: Language, t: LanguageType)
      modifies this
      ensures settings == ResetType(old(settings), l, t)
      ensures GetTypeConfig(l, t) == DefaultTypeConfig(l, t)
    {
      settings := ResetType(settings, l, t);
    }
  }
}

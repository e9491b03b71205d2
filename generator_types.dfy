/** The option resolver of the type generator: the per-language type
    variants, the label and default-value tables of the boolean generation
    options, the two-level dispatch from a (language, variant) pair to those
    tables, and the seeded default settings aggregate. Variants and option
    keys are datatypes whose catch-all case carries any other string that
    persisted data may hold. */
module GeneratorTypes {
  import opened Seqs

  datatype Language = TypeScript | Java | CSharp

  function LanguageName(l: Language): string
  {
    match l
    case TypeScript => "typescript"
    case Java => "java"
    case CSharp => "csharp"
  }

  /** A type variant. The source compares variant strings; the seven the
      unions name are constructors here, and any other string that
      persisted data may carry is `OtherType`. */
  datatype LanguageType = Dto | Record | Pojo | Class | Interface | TypeAlias | Zod | OtherType(name: string)

  /** The variant as the source spells it. */
  function TypeName(t: LanguageType): string
  {
    match t
    case Dto => "dto"
    case Record => "record"
    case Pojo => "pojo"
    case Class => "class"
    case Interface => "interface"
    case TypeAlias => "type"
    case Zod => "zod"
    case OtherType(n) => n
  }

  /** The spellings of the seven named variants. */
  const KnownTypeNames: set<string> := {"dto", "record", "pojo", "class", "interface", "type", "zod"}

  /** A variant as the model reads it: a known spelling is its constructor,
      so `OtherType` only ever carries another name. */
  predicate CanonicalType(t: LanguageType)
  {
    t.OtherType? ==> t.name !in KnownTypeNames
  }

  /** Canonical variants with the same spelling are the same variant. */
  lemma TypeNameInjective(t1: LanguageType, t2: LanguageType)
    requires CanonicalType(t1) && CanonicalType(t2) && TypeName(t1) == TypeName(t2)
    ensures t1 == t2
  {
  }

  /** The `JavaType`, `TypeScriptType` and `CSharpType` unions. */
  predicate IsLanguageTypeOf(l: Language, t: LanguageType)
  {
    match l
    case Java => t in {Dto, Record, Pojo}
    case TypeScript => t in {Class, Interface, TypeAlias, Zod}
    case CSharp => t in {Class, Record, Dto}
  }

  /** A boolean generation option. The keys of the source's tables are
      constructors; `OtherKey` is a key none of the tables uses (one left in
      persisted data by an older version, or one that only ConfigSummary's
      short-label table knows). */
  datatype OptionKey =
    | Getter | Setter | NoArgsConstructor | AllArgsConstructor | Builder | Data
    | SwaggerAnnotations | Serializable | JacksonAnnotations | ExtraSpacing | AddSpaceFormatting
    | ExportAllTypes | ReadonlyProperties | OptionalProperties | StrictNullChecks | Comments
    | JsDocComments | PartialType | ReadonlyType
    | AllOptional | Nullable | Nullish | MaxValue | TrimStrings
    | JsonPropertyName | PrimaryConstructor | WithExpression | PositionalSyntax
    | DataAnnotations | InitOnlySetters | PropertyChangedNotify
    | OtherKey(name: string)

  /** The key as the source spells it. */
  function KeyName(k: OptionKey): string
  {
    match k
    case Getter => "getter"
    case Setter => "setter"
    case NoArgsConstructor => "noArgsConstructor"
    case AllArgsConstructor => "allArgsConstructor"
    case Builder => "builder"
    case Data => "data"
    case SwaggerAnnotations => "swaggerAnnotations"
    case Serializable => "serializable"
    case JacksonAnnotations => "jacksonAnnotations"
    case ExtraSpacing => "extraSpacing"
    case AddSpaceFormatting => "addSpaceFormatting"
    case ExportAllTypes => "exportAllTypes"
    case ReadonlyProperties => "readonlyProperties"
    case OptionalProperties => "optionalProperties"
    case StrictNullChecks => "strictNullChecks"
    case Comments => "comments"
    case JsDocComments => "jsDocComments"
    case PartialType => "partialType"
    case ReadonlyType => "readonlyType"
    case AllOptional => "allOptional"
    case Nullable => "nullable"
    case Nullish => "nullish"
    case MaxValue => "maxValue"
    case TrimStrings => "trimStrings"
    case JsonPropertyName => "jsonPropertyName"
    case PrimaryConstructor => "primaryConstructor"
    case WithExpression => "withExpression"
    case PositionalSyntax => "positionalSyntax"
    case DataAnnotations => "dataAnnotations"
    case InitOnlySetters => "initOnlySetters"
    case PropertyChangedNotify => "propertyChangedNotify"
    case OtherKey(n) => n
  }

  /** The spellings of the keys the option tables use. */
  const KnownKeyNames: set<string> := {"getter", "setter", "noArgsConstructor", "allArgsConstructor", "builder", "data", "swaggerAnnotations", "serializable", "jacksonAnnotations", "extraSpacing", "addSpaceFormatting", "exportAllTypes", "readonlyProperties", "optionalProperties", "strictNullChecks", "comments", "jsDocComments", "partialType", "readonlyType", "allOptional", "nullable", "nullish", "maxValue", "trimStrings", "jsonPropertyName", "primaryConstructor", "withExpression", "positionalSyntax", "dataAnnotations", "initOnlySetters", "propertyChangedNotify"}

  /** A key as the model reads it from persisted data: a known spelling is
      its constructor, so `OtherKey` only ever carries another name. */
  predicate CanonicalKey(k: OptionKey)
  {
    k.OtherKey? ==> k.name !in KnownKeyNames
  }

  /** The known spellings are exactly those of the constructors. */
  lemma KnownKeyNamesSpelled(k: OptionKey)
    ensures !k.OtherKey? <==> KeyName(k) in KnownKeyNames && CanonicalKey(k)
  {
  }

  /** `Record<string, boolean>` of option values. */
  type OptionMap = map<OptionKey, bool>

  datatype TypeOption = TypeOption(value: LanguageType, text: string)

  const JavaTypes: seq<TypeOption> :=
    [TypeOption(Dto, "Java DTO"), TypeOption(Record, "Java Record")]

  const TypeScriptTypes: seq<TypeOption> :=
    [TypeOption(Interface, "Interface"), TypeOption(Class, "Class"),
     TypeOption(TypeAlias, "Type Alias"), TypeOption(Zod, "Zod Schema")]

  const CSharpTypes: seq<TypeOption> :=
    [TypeOption(Class, "C# Class"), TypeOption(Record, "C# Record"), TypeOption(Dto, "C# DTO")]

  /** The variants a language offers for selection. */
  function TypeOptions(l: Language): seq<TypeOption>
  {
    match l
    case Java => JavaTypes
    case TypeScript => TypeScriptTypes
    case CSharp => CSharpTypes
  }

  function Values(opts: seq<TypeOption>): set<LanguageType>
  {
    if opts == [] then {} else {opts[0].value} + Values(opts[1..])
  }

  function ListedTypes(l: Language): set<LanguageType>
  {
    Values(TypeOptions(l))
  }

  /** One entry of a `*_OPTION_LABELS` record, in declaration order. */
  datatype OptionLabel = OptionLabel(key: OptionKey, text: string)

  type LabelTable = seq<OptionLabel>

  /** `Object.keys` of a label record: the keys in declaration order. */
  function LabelKeys(table: LabelTable): (keys: seq<OptionKey>)
    ensures |keys| == |table|
    ensures forall i :: 0 <= i < |table| ==> keys[i] == table[i].key
  {
    seq(|table|, i requires 0 <= i < |table| => table[i].key)
  }

  function KeySet(table: LabelTable): set<OptionKey>
  {
    set k | k in LabelKeys(table)
  }

  const JavaRecordOptionLabels: LabelTable := [
    OptionLabel(Builder, "Builder pattern"),
    OptionLabel(ExtraSpacing, "Add space formatting"),
    OptionLabel(SwaggerAnnotations, "Add Swagger Annotations"),
    OptionLabel(JacksonAnnotations, "Add Jackson Annotations")]

  const JavaClassOptionLabels: LabelTable := [
    OptionLabel(Getter, "Add @Getter"),
    OptionLabel(Setter, "Add @Setter"),
    OptionLabel(NoArgsConstructor, "Add @NoArgsConstructor"),
    OptionLabel(AllArgsConstructor, "Add @AllArgsConstructor"),
    OptionLabel(Builder, "Add @Builder"),
    OptionLabel(Data, "Add @Data"),
    OptionLabel(SwaggerAnnotations, "Add Swagger Annotations"),
    OptionLabel(Serializable, "Implement Serializable"),
    OptionLabel(JacksonAnnotations, "Add Jackson Annotations"),
    OptionLabel(ExtraSpacing, "Extra Spacing")]

  /** The interface, type-alias and class label records of TypeScript are
      three separate constants in the source with identical contents. */
  const TypeScriptInterfaceOptionLabels: LabelTable := [
    OptionLabel(ExportAllTypes, "Export All Types"),
    OptionLabel(ReadonlyProperties, "Use readonly Properties"),
    OptionLabel(OptionalProperties, "Use Optional Properties"),
    OptionLabel(StrictNullChecks, "Enable strictNullChecks"),
    OptionLabel(Comments, "Add Comments"),
    OptionLabel(JsDocComments, "Add JSDoc Comments"),
    OptionLabel(PartialType, "Generate Partial"),
    OptionLabel(ReadonlyType, "Generate Readonly"),
    OptionLabel(ExtraSpacing, "Extra Spacing")]

  const TypeScriptTypeOptionLabels: LabelTable := TypeScriptInterfaceOptionLabels

  const TypeScriptClassOptionLabels: LabelTable := TypeScriptInterfaceOptionLabels

  const TypeScriptZodOptionLabels: LabelTable := [
    OptionLabel(ExportAllTypes, "Export All Types"),
    OptionLabel(AllOptional, "Use Optional Properties"),
    OptionLabel(Comments, "Add Comments"),
    OptionLabel(Nullable, "Make all Nullable"),
    OptionLabel(Nullish, "Make all Nullable and Optional"),
    OptionLabel(MaxValue, "Use Max"),
    OptionLabel(TrimStrings, "Apply trim() to Strings")]

  const CSharpRecordOptionLabels: LabelTable := [
    OptionLabel(ExtraSpacing, "Add space formatting"),
    OptionLabel(Nullable, "Nullable reference types"),
    OptionLabel(JsonPropertyName, "JsonPropertyName attributes"),
    OptionLabel(PrimaryConstructor, "Primary constructor"),
    OptionLabel(WithExpression, "With expression support"),
    OptionLabel(PositionalSyntax, "Positional record syntax")]

  const CSharpClassOptionLabels: LabelTable := [
    OptionLabel(ExtraSpacing, "Add space formatting"),
    OptionLabel(Nullable, "Nullable reference types"),
    OptionLabel(JsonPropertyName, "JsonPropertyName attributes"),
    OptionLabel(DataAnnotations, "Data annotations"),
    OptionLabel(InitOnlySetters, "Init-only setters"),
    OptionLabel(PropertyChangedNotify, "INotifyPropertyChanged")]

  /** getTypeSpecificOptionLabels: dispatch on the language, then on the
      variant, with the class-like table as each language's fallback. */
  function OptionLabels(l: Language, t: LanguageType): (r: LabelTable)
    ensures |r| > 0
    ensures forall i :: 0 <= i < |r| ==> !r[i].key.OtherKey?
  {
    match l
    case Java =>
      if t == Record then JavaRecordOptionLabels else JavaClassOptionLabels
    case TypeScript =>
      if t == Interface then TypeScriptInterfaceOptionLabels
      else if t == TypeAlias then TypeScriptTypeOptionLabels
      else if t == Zod then TypeScriptZodOptionLabels
      else TypeScriptClassOptionLabels
    case CSharp =>
      if t == Record then CSharpRecordOptionLabels else CSharpClassOptionLabels
  }

  // The default option maps of getTypeSpecificDefaultOptions.

  const JavaRecordDefaults: OptionMap :=
    map[Builder := false, ExtraSpacing := false, SwaggerAnnotations := true,
        JacksonAnnotations := false]

  const JavaClassDefaults: OptionMap :=
    map[Getter := false, Setter := false, NoArgsConstructor := false,
        AllArgsConstructor := false, Builder := true, Data := true,
        SwaggerAnnotations := true, Serializable := false,
        JacksonAnnotations := false, ExtraSpacing := false]

  const TypeScriptZodDefaults: OptionMap :=
    map[ExportAllTypes := false, Comments := false, AllOptional := true,
        Nullable := false, Nullish := false, MaxValue := false, TrimStrings := true]

  const TypeScriptTypeDefaults: OptionMap :=
    map[ExportAllTypes := false, ReadonlyProperties := true,
        OptionalProperties := false, StrictNullChecks := true, Comments := false,
        JsDocComments := false, PartialType := false, ReadonlyType := false,
        ExtraSpacing := false]

  const TypeScriptInterfaceDefaults: OptionMap :=
    map[ExportAllTypes := false, ReadonlyProperties := true,
        OptionalProperties := false, StrictNullChecks := true, Comments := false,
        JsDocComments := false, PartialType := false, ReadonlyType := false,
        ExtraSpacing := false]

  const CSharpRecordDefaults: OptionMap :=
    map[AddSpaceFormatting := false, Nullable := true, JsonPropertyName := false,
        PrimaryConstructor := true, WithExpression := false, PositionalSyntax := false]

  const CSharpClassDefaults: OptionMap :=
    map[AddSpaceFormatting := false, Nullable := true, JsonPropertyName := false,
        DataAnnotations := false, InitOnlySetters := false,
        PropertyChangedNotify := false]

  /** getTypeSpecificDefaultOptions. Its TypeScript branch tests 'zod' and
      'type' and gives every other variant the interface defaults; the C#
      maps spell the spacing option `addSpaceFormatting`. */
  function DefaultOptions(l: Language, t: LanguageType): (r: OptionMap)
  {
    match l
    case Java =>
      if t == Record then JavaRecordDefaults else JavaClassDefaults
    case TypeScript =>
      if t == Zod then TypeScriptZodDefaults
      else if t == TypeAlias then TypeScriptTypeDefaults
      else TypeScriptInterfaceDefaults
    case CSharp =>
      if t == Record then CSharpRecordDefaults else CSharpClassDefaults
  }

  /** The option keys a map sets to true. */
  function TrueKeys(m: OptionMap): set<OptionKey>
  {
    set k | k in m && m[k]
  }

  datatype TypeConfig = TypeConfig(advancedOptions: OptionMap, prefix: string, suffix: string)

  /** `typeConfigs` is keyed by the bare variant name. */
  datatype LanguageSettings = LanguageSettings(selectedType: LanguageType, typeConfigs: map<LanguageType, TypeConfig>)

  datatype GeneratorSettings = GeneratorSettings(java: LanguageSettings, typescript: LanguageSettings, csharp: LanguageSettings)
  {
    /** `settings[language]`. */
    function Of(l: Language): LanguageSettings
    {
      match l
      case Java => java
      case TypeScript => typescript
      case CSharp => csharp
    }

    /** `{ ...settings, [language]: ls }`. */
    function With(l: Language, ls: LanguageSettings): (r: GeneratorSettings)
      ensures r.Of(l) == ls
      ensures forall l' :: l' != l ==> r.Of(l') == Of(l')
    {
      match l
      case Java => this.(java := ls)
      case TypeScript => this.(typescript := ls)
      case CSharp => this.(csharp := ls)
    }
  }

  /** getTypeConfigKey: `${language}-${type}`. */
  function TypeConfigKey(l: Language, t: LanguageType): (k: string)
    ensures |k| == |LanguageName(l)| + 1 + |TypeName(t)|
    ensures k[..|LanguageName(l)|] == LanguageName(l) && k[|LanguageName(l)|] == '-'
    ensures k[|LanguageName(l)| + 1..] == TypeName(t)
  {
    LanguageName(l) + "-" + TypeName(t)
  }

  /** getDefaultTypeConfig: the default options of the pair, no prefix, no suffix. */
  function DefaultTypeConfig(l: Language, t: LanguageType): (c: TypeConfig)
    ensures c.prefix == "" && c.suffix == ""
    ensures c.advancedOptions == DefaultOptions(l, t)
  {
    TypeConfig(DefaultOptions(l, t), "", "")
  }

  /** DEFAULT_GENERATOR_SETTINGS. */
  const DefaultGeneratorSettings: GeneratorSettings := GeneratorSettings(
    java := LanguageSettings(Dto, map[
      Dto := DefaultTypeConfig(Java, Dto),
      Record := DefaultTypeConfig(Java, Record)]),
    typescript := LanguageSettings(Interface, map[
      Interface := DefaultTypeConfig(TypeScript, Interface),
      Class := DefaultTypeConfig(TypeScript, Class),
      TypeAlias := DefaultTypeConfig(TypeScript, TypeAlias),
      Zod := DefaultTypeConfig(TypeScript, Zod)]),
    csharp := LanguageSettings(Class, map[
      Class := DefaultTypeConfig(CSharp, Class),
      Record := DefaultTypeConfig(CSharp, Record),
      Dto := DefaultTypeConfig(CSharp, Dto)]))

  // ---------------------------------------------------------------------
  // Properties of the resolver

  /** Every variant other than the explicitly dispatched ones gets the
      language's class-like label table. */
  lemma LabelFallback(t: LanguageType)
    ensures t != Record ==> OptionLabels(Java, t) == JavaClassOptionLabels
    ensures OptionLabels(Java, t) == JavaRecordOptionLabels <==> t == Record
    ensures t != Record ==> OptionLabels(CSharp, t) == CSharpClassOptionLabels
    ensures OptionLabels(CSharp, t) == CSharpRecordOptionLabels <==> t == Record
    ensures OptionLabels(TypeScript, t) == TypeScriptZodOptionLabels <==> t == Zod
    ensures t !in {Interface, TypeAlias, Zod} ==> OptionLabels(TypeScript, t) == TypeScriptClassOptionLabels
  {
    assert JavaClassOptionLabels[0].key != JavaRecordOptionLabels[0].key;
    assert CSharpClassOptionLabels[3].key != CSharpRecordOptionLabels[3].key;
    assert |TypeScriptInterfaceOptionLabels| != |TypeScriptZodOptionLabels|;
  }

  /** Every variant other than 'zod' and 'type' (including 'class') gets
      the TypeScript interface defaults; every non-'record' Java or C#
      variant gets that language's class defaults. */
  lemma DefaultFallback(t: LanguageType)
    ensures t != Zod && t != TypeAlias ==> DefaultOptions(TypeScript, t) == TypeScriptInterfaceDefaults
    ensures t != Record ==> DefaultOptions(Java, t) == JavaClassDefaults
    ensures t != Record ==> DefaultOptions(CSharp, t) == CSharpClassDefaults
    ensures DefaultOptions(Java, t) == JavaRecordDefaults <==> t == Record
    ensures DefaultOptions(CSharp, t) == CSharpRecordDefaults <==> t == Record
  {
    assert Getter in JavaClassDefaults && Getter !in JavaRecordDefaults;
    assert DataAnnotations in CSharpClassDefaults && DataAnnotations !in CSharpRecordDefaults;
  }

  // The key sets of the concrete tables, one table per lemma.

  lemma JavaRecordLabelKeys()
    ensures KeySet(JavaRecordOptionLabels) ==
      {Builder, ExtraSpacing, SwaggerAnnotations, JacksonAnnotations}
  {
    assert LabelKeys(JavaRecordOptionLabels) ==
      [Builder, ExtraSpacing, SwaggerAnnotations, JacksonAnnotations];
  }

  lemma JavaRecordDefaultKeys()
    ensures JavaRecordDefaults.Keys ==
      {Builder, ExtraSpacing, SwaggerAnnotations, JacksonAnnotations}
    ensures TrueKeys(JavaRecordDefaults) == {SwaggerAnnotations}
  {
  }

  lemma JavaClassLabelKeys()
    ensures KeySet(JavaClassOptionLabels) ==
      {Getter, Setter, NoArgsConstructor, AllArgsConstructor, Builder, Data,
        SwaggerAnnotations, Serializable, JacksonAnnotations, ExtraSpacing}
  {
    assert LabelKeys(JavaClassOptionLabels) ==
      [Getter, Setter, NoArgsConstructor, AllArgsConstructor, Builder, Data,
        SwaggerAnnotations, Serializable, JacksonAnnotations, ExtraSpacing];
  }

  lemma JavaClassDefaultKeys()
    ensures JavaClassDefaults.Keys ==
      {Getter, Setter, NoArgsConstructor, AllArgsConstructor, Builder, Data,
        SwaggerAnnotations, Serializable, JacksonAnnotations, ExtraSpacing}
    ensures TrueKeys(JavaClassDefaults) == {Builder, Data, SwaggerAnnotations}
  {
  }

  lemma TypeScriptInterfaceLabelKeys()
    ensures KeySet(TypeScriptInterfaceOptionLabels) ==
      {ExportAllTypes, ReadonlyProperties, OptionalProperties, StrictNullChecks,
        Comments, JsDocComments, PartialType, ReadonlyType, ExtraSpacing}
  {
    assert LabelKeys(TypeScriptInterfaceOptionLabels) ==
      [ExportAllTypes, ReadonlyProperties, OptionalProperties, StrictNullChecks,
        Comments, JsDocComments, PartialType, ReadonlyType, ExtraSpacing];
  }

  lemma TypeScriptInterfaceDefaultKeys()
    ensures TypeScriptInterfaceDefaults.Keys ==
      {ExportAllTypes, ReadonlyProperties, OptionalProperties, StrictNullChecks,
        Comments, JsDocComments, PartialType, ReadonlyType, ExtraSpacing}
    ensures TrueKeys(TypeScriptInterfaceDefaults) == {ReadonlyProperties, StrictNullChecks}
  {
  }

  lemma TypeScriptTypeDefaultKeys()
    ensures TypeScriptTypeDefaults == TypeScriptInterfaceDefaults
    ensures TrueKeys(TypeScriptTypeDefaults) == {ReadonlyProperties, StrictNullChecks}
  {
    TypeScriptInterfaceDefaultKeys();
  }

  lemma TypeScriptZodLabelKeys()
    ensures KeySet(TypeScriptZodOptionLabels) ==
      {ExportAllTypes, AllOptional, Comments, Nullable, Nullish, MaxValue, TrimStrings}
  {
    assert LabelKeys(TypeScriptZodOptionLabels) ==
      [ExportAllTypes, AllOptional, Comments, Nullable, Nullish, MaxValue, TrimStrings];
  }

  lemma TypeScriptZodDefaultKeys()
    ensures TypeScriptZodDefaults.Keys ==
      {ExportAllTypes, AllOptional, Comments, Nullable, Nullish, MaxValue, TrimStrings}
    ensures TrueKeys(TypeScriptZodDefaults) == {AllOptional, TrimStrings}
  {
  }

  lemma CSharpRecordLabelKeys()
    ensures KeySet(CSharpRecordOptionLabels) ==
      {ExtraSpacing, Nullable, JsonPropertyName, PrimaryConstructor, WithExpression,
        PositionalSyntax}
  {
    assert LabelKeys(CSharpRecordOptionLabels) ==
      [ExtraSpacing, Nullable, JsonPropertyName, PrimaryConstructor, WithExpression,
        PositionalSyntax];
  }

  lemma CSharpRecordDefaultKeys()
    ensures CSharpRecordDefaults.Keys ==
      {AddSpaceFormatting, Nullable, JsonPropertyName, PrimaryConstructor, WithExpression,
        PositionalSyntax}
    ensures TrueKeys(CSharpRecordDefaults) == {Nullable, PrimaryConstructor}
  {
  }

  lemma CSharpClassLabelKeys()
    ensures KeySet(CSharpClassOptionLabels) ==
      {ExtraSpacing, Nullable, JsonPropertyName, DataAnnotations, InitOnlySetters,
        PropertyChangedNotify}
  {
    assert LabelKeys(CSharpClassOptionLabels) ==
      [ExtraSpacing, Nullable, JsonPropertyName, DataAnnotations, InitOnlySetters,
        PropertyChangedNotify];
  }

  lemma CSharpClassDefaultKeys()
    ensures CSharpClassDefaults.Keys ==
      {AddSpaceFormatting, Nullable, JsonPropertyName, DataAnnotations, InitOnlySetters,
        PropertyChangedNotify}
    ensures TrueKeys(CSharpClassDefaults) == {Nullable}
  {
  }

  /** For Java and TypeScript the default map has exactly the label keys. */
  lemma DefaultsMatchLabels(l: Language, t: LanguageType)
    requires l != CSharp
    ensures DefaultOptions(l, t).Keys == KeySet(OptionLabels(l, t))
  {
    if l == Java {
      JavaDefaultsMatchLabels(t);
    } else {
      TypeScriptDefaultsMatchLabels(t);
    }
  }

  lemma JavaDefaultsMatchLabels(t: LanguageType)
    ensures DefaultOptions(Java, t).Keys == KeySet(OptionLabels(Java, t))
  {
    LabelFallback(t);
    if t == Record {
      JavaRecordLabelKeys();
      JavaRecordDefaultKeys();
    } else {
      assert DefaultOptions(Java, t) == JavaClassDefaults;
      JavaClassLabelKeys();
      JavaClassDefaultKeys();
    }
  }

  lemma TypeScriptDefaultsMatchLabels(t: LanguageType)
    ensures DefaultOptions(TypeScript, t).Keys == KeySet(OptionLabels(TypeScript, t))
  {
    if t == Zod {
      TypeScriptZodLabelKeys();
      TypeScriptZodDefaultKeys();
    } else {
      assert OptionLabels(TypeScript, t) == TypeScriptInterfaceOptionLabels;
      TypeScriptInterfaceLabelKeys();
      TypeScriptInterfaceDefaultKeys();
      TypeScriptTypeDefaultKeys();
    }
  }

  /** For C# the defaults name the spacing option `addSpaceFormatting`
      while the labels name it `extraSpacing`; apart from that one key
      the key sets coincide. */
  lemma CSharpSpacingKeyMismatch(t: LanguageType)
    ensures AddSpaceFormatting in DefaultOptions(CSharp, t)
    ensures AddSpaceFormatting !in KeySet(OptionLabels(CSharp, t))
    ensures ExtraSpacing in KeySet(OptionLabels(CSharp, t))
    ensures ExtraSpacing !in DefaultOptions(CSharp, t)
    ensures DefaultOptions(CSharp, t).Keys - {AddSpaceFormatting} == KeySet(OptionLabels(CSharp, t)) - {ExtraSpacing}
  {
    if t == Record {
      CSharpRecordSpacing();
    } else {
      assert OptionLabels(CSharp, t) == CSharpClassOptionLabels;
      CSharpClassSpacing();
    }
  }

  lemma CSharpRecordSpacing()
    ensures AddSpaceFormatting in CSharpRecordDefaults && ExtraSpacing !in CSharpRecordDefaults
    ensures AddSpaceFormatting !in KeySet(CSharpRecordOptionLabels)
    ensures ExtraSpacing in KeySet(CSharpRecordOptionLabels)
    ensures CSharpRecordDefaults.Keys - {AddSpaceFormatting} == KeySet(CSharpRecordOptionLabels) - {ExtraSpacing}
  {
    CSharpRecordLabelKeys();
    CSharpRecordDefaultKeys();
  }

  lemma CSharpClassSpacing()
    ensures AddSpaceFormatting in CSharpClassDefaults && ExtraSpacing !in CSharpClassDefaults
    ensures AddSpaceFormatting !in KeySet(CSharpClassOptionLabels)
    ensures ExtraSpacing in KeySet(CSharpClassOptionLabels)
    ensures CSharpClassDefaults.Keys - {AddSpaceFormatting} == KeySet(CSharpClassOptionLabels) - {ExtraSpacing}
  {
    CSharpClassLabelKeys();
    CSharpClassDefaultKeys();
  }

  /** A key outside the known vocabulary is in no table. */
  lemma UnknownKeyInNoTable(l: Language, t: LanguageType, k: OptionKey)
    requires k.OtherKey? && CanonicalKey(k)
    ensures k !in DefaultOptions(l, t)
    ensures k !in KeySet(OptionLabels(l, t))
  {
    var keys := LabelKeys(OptionLabels(l, t));
    assert forall i :: 0 <= i < |keys| ==> keys[i] != k;
    assert k !in JavaRecordDefaults && k !in JavaClassDefaults;
    assert k !in TypeScriptZodDefaults && k !in TypeScriptTypeDefaults && k !in TypeScriptInterfaceDefaults;
    assert k !in CSharpRecordDefaults && k !in CSharpClassDefaults;
  }

  /** No label table has more than ten options. */
  lemma LabelTableSizes(l: Language, t: LanguageType)
    ensures |OptionLabels(l, t)| <= 10
  {
  }

  /** Which default options are switched on, per (language, variant). */
  lemma DefaultTrueOptions(l: Language, t: LanguageType)
    ensures l == Java && t == Record ==> TrueKeys(DefaultOptions(l, t)) == {SwaggerAnnotations}
    ensures l == Java && t != Record ==> TrueKeys(DefaultOptions(l, t)) == {Builder, Data, SwaggerAnnotations}
    ensures l == TypeScript && t == Zod ==> TrueKeys(DefaultOptions(l, t)) == {AllOptional, TrimStrings}
    ensures l == TypeScript && t != Zod ==> TrueKeys(DefaultOptions(l, t)) == {ReadonlyProperties, StrictNullChecks}
    ensures l == CSharp && t == Record ==> TrueKeys(DefaultOptions(l, t)) == {Nullable, PrimaryConstructor}
    ensures l == CSharp && t != Record ==> TrueKeys(DefaultOptions(l, t)) == {Nullable}
  {
    match l
    case Java =>
      if t == Record { JavaRecordDefaultKeys(); } else { JavaClassDefaultKeys(); }
    case TypeScript =>
      if t == Zod { TypeScriptZodDefaultKeys(); }
      else if t == TypeAlias { TypeScriptTypeDefaultKeys(); }
      else { TypeScriptInterfaceDefaultKeys(); }
    case CSharp =>
      if t == Record { CSharpRecordDefaultKeys(); } else { CSharpClassDefaultKeys(); }
  }

  /** The default aggregate seeds exactly the listed variants of each
      language, selects one of them, and seeds each with its default config. */
  lemma DefaultSettingsShape(l: Language)
    ensures DefaultGeneratorSettings.Of(l).typeConfigs.Keys == ListedTypes(l)
    ensures DefaultGeneratorSettings.Of(l).selectedType in ListedTypes(l)
    ensures forall t :: t in DefaultGeneratorSettings.Of(l).typeConfigs ==>
              DefaultGeneratorSettings.Of(l).typeConfigs[t] == DefaultTypeConfig(l, t)
    ensures forall t :: t in ListedTypes(l) ==> IsLanguageTypeOf(l, t)
  {
    match l
    case Java => JavaSettingsShape(); JavaSeeds();
    case TypeScript => TypeScriptSettingsShape(); TypeScriptSeeds();
    case CSharp => CSharpSettingsShape(); CSharpSeeds();
  }

  lemma JavaSettingsShape()
    ensures ListedTypes(Java) == {Dto, Record}
    ensures DefaultGeneratorSettings.java.typeConfigs.Keys == {Dto, Record}
    ensures DefaultGeneratorSettings.java.selectedType == Dto
    ensures IsLanguageTypeOf(Java, Dto) && IsLanguageTypeOf(Java, Record)
  {
  }

  lemma TypeScriptSettingsShape()
    ensures ListedTypes(TypeScript) == {Interface, Class, TypeAlias, Zod}
    ensures DefaultGeneratorSettings.typescript.typeConfigs.Keys == {Interface, Class, TypeAlias, Zod}
    ensures DefaultGeneratorSettings.typescript.selectedType == Interface
    ensures IsLanguageTypeOf(TypeScript, Interface) && IsLanguageTypeOf(TypeScript, Class)
    ensures IsLanguageTypeOf(TypeScript, TypeAlias) && IsLanguageTypeOf(TypeScript, Zod)
  {
  }

  lemma CSharpSettingsShape()
    ensures ListedTypes(CSharp) == {Class, Record, Dto}
    ensures DefaultGeneratorSettings.csharp.typeConfigs.Keys == {Class, Record, Dto}
    ensures DefaultGeneratorSettings.csharp.selectedType == Class
    ensures IsLanguageTypeOf(CSharp, Class) && IsLanguageTypeOf(CSharp, Record)
    ensures IsLanguageTypeOf(CSharp, Dto)
  {
  }

  lemma JavaSeeds()
    ensures forall t :: t in DefaultGeneratorSettings.java.typeConfigs ==>
              DefaultGeneratorSettings.java.typeConfigs[t] == DefaultTypeConfig(Java, t)
  {
  }

  lemma TypeScriptSeeds()
    ensures forall t :: t in DefaultGeneratorSettings.typescript.typeConfigs ==>
              DefaultGeneratorSettings.typescript.typeConfigs[t] == DefaultTypeConfig(TypeScript, t)
  {
  }

  lemma CSharpSeeds()
    ensures forall t :: t in DefaultGeneratorSettings.csharp.typeConfigs ==>
              DefaultGeneratorSettings.csharp.typeConfigs[t] == DefaultTypeConfig(CSharp, t)
  {
  }

  /** 'pojo' belongs to the JavaType union but is neither listed nor seeded. */
  lemma PojoNotSeeded()
    ensures IsLanguageTypeOf(Java, Pojo)
    ensures Pojo !in ListedTypes(Java)
    ensures Pojo !in DefaultGeneratorSettings.Of(Java).typeConfigs
  {
    DefaultSettingsShape(Java);
  }

  /** Distinct (language, variant) pairs have distinct config keys. */
  lemma {:induction false} TypeConfigKeyInjective(l1: Language, t1: LanguageType, l2: Language, t2: LanguageType)
    requires CanonicalType(t1) && CanonicalType(t2)
    requires TypeConfigKey(l1, t1) == TypeConfigKey(l2, t2)
    ensures l1 == l2 && t1 == t2
  {
    var k := TypeConfigKey(l1, t1);
    assert k[0] == LanguageName(l1)[0] == LanguageName(l2)[0];
    assert TypeName(t1) == TypeName(t2);
    TypeNameInjective(t1, t2);
  }
}

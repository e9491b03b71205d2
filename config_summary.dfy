/** The configuration summary under the type selector: the enabled options
    of the pair as short chips (at most twelve, then a "+n more" count), the
    prefix and suffix when they are not blank, or an empty-state line. */
module ConfigSummary {
  import opened Seqs
  import opened Text
  import opened GeneratorTypes

  /** getShortLabel: the mapped short label, or the key itself. Five
      mapped keys (builderPattern, exportDefault, camelCaseProperties,
      positional, withInit) appear in no option table. */
  function ShortLabel(k: OptionKey): string
  {
    match k
    case AddSpaceFormatting => "Spacing"
    case ExtraSpacing => "Spacing"
    case Builder => "Builder"
    case Getter => "Getter"
    case Setter => "Setter"
    case NoArgsConstructor => "NoArgs"
    case AllArgsConstructor => "AllArgs"
    case Data => "@Data"
    case Serializable => "Serializable"
    case SwaggerAnnotations => "Swagger"
    case JacksonAnnotations => "Jackson"
    case Nullish => "Null + Optional"
    case MaxValue => "Max value"
    case TrimStrings => "Trim"
    case ExportAllTypes => "Export all"
    case ReadonlyProperties => "Readonly"
    case OptionalProperties => "Optional"
    case AllOptional => "Optional"
    case StrictNullChecks => "Strict null"
    case Comments => "Comments"
    case JsDocComments => "JSDoc"
    case PartialType => "Partial"
    case ReadonlyType => "Readonly"
    case Nullable => "Nullable"
    case JsonPropertyName => "JsonProp"
    case OtherKey(n) =>
      if n == "builderPattern" then "Builder"
      else if n == "exportDefault" then "Export default"
      else if n == "camelCaseProperties" then "Camel Case"
      else if n == "positional" then "Positional"
      else if n == "withInit" then "Init-only"
      else n
    case _ => KeyName(k)
  }

  /** A key the short-label table misses, such as the C#-only keys, is
      shown by its own name. */
  lemma UnmappedKeysShowName(n: string)
    requires n !in ["builderPattern", "exportDefault", "camelCaseProperties", "positional", "withInit"]
    requires CanonicalKey(OtherKey(n))
    ensures ShortLabel(OtherKey(n)) == n
    ensures ShortLabel(PrimaryConstructor) == "primaryConstructor"
    ensures ShortLabel(PositionalSyntax) == "positionalSyntax"
    ensures ShortLabel(InitOnlySetters) == "initOnlySetters"
  {
  }

  /** `advancedOptions[key] === true`. */
  predicate IsOn(stored: OptionMap, k: OptionKey)
  {
    k in stored && stored[k]
  }

  /** The label keys of the pair that are switched on, in label order. */
  function EnabledKeys(l: Language, t: LanguageType, stored: OptionMap): (r: seq<OptionKey>)
    ensures forall k :: k in r <==> k in KeySet(OptionLabels(l, t)) && IsOn(stored, k)
    ensures IsSubsequence(r, LabelKeys(OptionLabels(l, t)))
  {
    FilterIsSubsequence(LabelKeys(OptionLabels(l, t)), (k: OptionKey) => IsOn(stored, k));
    Filter(LabelKeys(OptionLabels(l, t)), (k: OptionKey) => IsOn(stored, k))
  }

  /** The chip texts: `enabledOptions`. */
  function EnabledOptions(l: Language, t: LanguageType, stored: OptionMap): (r: seq<string>)
    ensures |r| == |EnabledKeys(l, t, stored)|
    ensures forall i :: 0 <= i < |r| ==> r[i] == ShortLabel(EnabledKeys(l, t, stored)[i])
  {
    var keys := EnabledKeys(l, t, stored);
    seq(|keys|, i requires 0 <= i < |keys| => ShortLabel(keys[i]))
  }

  /** Stored keys outside the pair's labels make no difference. */
  lemma ForeignKeysIgnored(l: Language, t: LanguageType, stored: OptionMap)
    ensures var own := map k | k in stored && k in KeySet(OptionLabels(l, t)) :: stored[k];
            EnabledKeys(l, t, stored) == EnabledKeys(l, t, own)
  {
    var own := map k | k in stored && k in KeySet(OptionLabels(l, t)) :: stored[k];
    FilterCongruent(LabelKeys(OptionLabels(l, t)), (k: OptionKey) => IsOn(stored, k), (k: OptionKey) => IsOn(own, k));
  }

  /** `s.trim().length > 0`. */
  predicate IsPresent(s: string)
  {
    |Trim(s)| > 0
  }

  /** A prefix or suffix is shown exactly when it is not all whitespace. */
  lemma PresentIffNotBlank(s: string)
    ensures IsPresent(s) <==> !IsBlank(s)
  {
    TrimEmptyIffBlank(s);
  }

  /** The "No additional options configured" state. */
  predicate ShowsEmptyState(l: Language, t: LanguageType, stored: OptionMap, prefix: string, suffix: string)
  {
    |EnabledOptions(l, t, stored)| == 0 && !IsPresent(prefix) && !IsPresent(suffix)
  }

  /** The empty state shows exactly when no label key is on and both
      prefix and suffix are blank. */
  lemma EmptyStateIff(l: Language, t: LanguageType, stored: OptionMap, prefix: string, suffix: string)
    ensures ShowsEmptyState(l, t, stored, prefix, suffix) <==>
              (forall k :: k in KeySet(OptionLabels(l, t)) ==> !IsOn(stored, k)) && IsBlank(prefix) && IsBlank(suffix)
  {
    PresentIffNotBlank(prefix);
    PresentIffNotBlank(suffix);
    var e := EnabledKeys(l, t, stored);
    if |e| > 0 {
      assert e[0] in e;
    }
  }

  const MaxChips: nat := 12

  /** `enabledOptions.slice(0, 12)`. */
  function VisibleChips(options: seq<string>): (r: seq<string>)
    ensures |r| <= MaxChips && r <= options
    ensures |r| == if |options| < MaxChips then |options| else MaxChips
  {
    options[..if |options| < MaxChips then |options| else MaxChips]
  }

  /** The "+n more" count, present only beyond twelve chips. */
  function MoreCount(options: seq<string>): (r: Option<nat>)
    ensures r.Some? <==> |options| > MaxChips
    ensures r.Some? ==> r.value == |options| - MaxChips
  {
    if |options| > MaxChips then Some(|options| - MaxChips) else None
  }

  /** The chips shown and the count in "+n more" add up to all options. */
  lemma ChipsAccountForAll(options: seq<string>)
    ensures |VisibleChips(options)| + MoreCount(options).GetOr(0) == |options|
  {
  }

  /** No table has more than ten options, so the "+n more" count never
      appears. */
  lemma NoMoreCount(l: Language, t: LanguageType, stored: OptionMap)
    ensures |EnabledOptions(l, t, stored)| <= 10
    ensures MoreCount(EnabledOptions(l, t, stored)).None?
  {
    LabelTableSizes(l, t);
  }
}

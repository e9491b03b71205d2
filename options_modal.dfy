/** The additional-options dialog: when it opens it builds its local copy of
    the option values from the label keys of the (language, variant) pair,
    taking each value from the stored options, else from the defaults, else
    false; the checkboxes edit that copy, and Apply hands it back. */
module OptionsModal {
  import opened Seqs
  import opened GeneratorTypes

  /** The value the dialog shows for `k`: stored, else default, else false. */
  function InitialValue(stored: OptionMap, defaults: OptionMap, k: OptionKey): bool
  {
    if k in stored then stored[k] else if k in defaults then defaults[k] else false
  }

  /** The local options for a list of keys. */
  function LocalOptionsFor(keys: seq<OptionKey>, stored: OptionMap, defaults: OptionMap): (r: OptionMap)
    ensures r.Keys == set k | k in keys
  {
    map k | k in keys :: InitialValue(stored, defaults, k)
  }

  /** The local options the dialog opens with for the pair (l, t). */
  function LocalOptions(l: Language, t: LanguageType, stored: OptionMap): OptionMap
  {
    LocalOptionsFor(LabelKeys(OptionLabels(l, t)), stored, DefaultOptions(l, t))
  }

  /** The opening effect as the source runs it: one pass over the label
      keys, filling a fresh record. */
  method BuildLocalOptions(keys: seq<OptionKey>, stored: OptionMap, defaults: OptionMap) returns (relevant: OptionMap)
    ensures relevant == LocalOptionsFor(keys, stored, defaults)
  {
    relevant := map[];
    var i := 0;
    while i < |keys|
      invariant 0 <= i <= |keys|
      invariant relevant == LocalOptionsFor(keys[..i], stored, defaults)
    {
      var key := keys[i];
      if key in stored {
        relevant := relevant[key := stored[key]];
      } else if key in defaults {
        relevant := relevant[key := defaults[key]];
      } else {
        relevant := relevant[key := false];
      }
      assert keys[..i + 1] == keys[..i] + [key];
      i := i + 1;
    }
    assert keys[..i] == keys;
  }

  /** The dialog shows exactly the label keys; a stored key outside them is
      not shown, and each shown value follows the stored > default > false
      precedence. */
  lemma LocalOptionsShape(l: Language, t: LanguageType, stored: OptionMap, k: OptionKey)
    ensures LocalOptions(l, t, stored).Keys == KeySet(OptionLabels(l, t))
    ensures k in LocalOptions(l, t, stored) && k in stored ==> LocalOptions(l, t, stored)[k] == stored[k]
    ensures k in LocalOptions(l, t, stored) && k !in stored && k in DefaultOptions(l, t) ==>
              LocalOptions(l, t, stored)[k] == DefaultOptions(l, t)[k]
    ensures k in LocalOptions(l, t, stored) && k !in stored && k !in DefaultOptions(l, t) ==>
              !LocalOptions(l, t, stored)[k]
  {
  }

  /** For Java and TypeScript, a dialog opened on empty stored options
      shows the defaults. */
  lemma LocalOptionsWithoutStored(l: Language, t: LanguageType)
    requires l != CSharp
    ensures LocalOptions(l, t, map[]) == DefaultOptions(l, t)
  {
    DefaultsMatchLabels(l, t);
  }

  /** For C#, the spacing option is shown under the label key, which the
      defaults lack: it opens with the stored value or false, never with a
      default, and the default's `addSpaceFormatting` is not shown at all. */
  lemma CSharpSpacingFallback(t: LanguageType, stored: OptionMap)
    ensures ExtraSpacing in LocalOptions(CSharp, t, stored)
    ensures LocalOptions(CSharp, t, stored)[ExtraSpacing] == (ExtraSpacing in stored && stored[ExtraSpacing])
    ensures AddSpaceFormatting !in LocalOptions(CSharp, t, stored)
  {
    CSharpSpacingKeyMismatch(t);
  }

  /** Applying the dialog and opening it again shows the same values. */
  lemma ReopenAfterApply(l: Language, t: LanguageType, stored: OptionMap)
    ensures LocalOptions(l, t, LocalOptions(l, t, stored)) == LocalOptions(l, t, stored)
  {
  }

  /** getTypeDisplayName: fixed names for six variants, the variant itself
      for any other (such as 'zod'). */
  function TypeDisplayName(t: LanguageType): (r: string)
    ensures t !in {Dto, Record, Pojo, Interface, TypeAlias, Class} ==> r == TypeName(t)
  {
    match t
    case Dto => "DTO/Class"
    case Record => "Record"
    case Pojo => "POJO"
    case Interface => "Interface"
    case TypeAlias => "Type Alias"
    case Class => "Class"
    case _ => TypeName(t)
  }

  /** The dialog's state cells. */
  class OptionsDialog {
    var open: bool
    var localOptions: OptionMap
    var localPrefix: string
    var localSuffix: string

    constructor(prefix: string, suffix: string)
      ensures !open && localOptions == map[] && localPrefix == prefix && localSuffix == suffix
    {
      open := false;
      localOptions := map[];
      localPrefix := prefix;
      localSuffix := suffix;
    }

    /** Opening the dialog runs the effect: the local copy is rebuilt from
        the props. */
    method Open(l: Language, t: LanguageType, advancedOptions: OptionMap, prefix: string, suffix: string)
      modifies this
      ensures open
      ensures localOptions == LocalOptions(l, t, advancedOptions)
      ensures localPrefix == prefix && localSuffix == suffix
    {
      open := true;
      var relevant := BuildLocalOptions(LabelKeys(OptionLabels(l, t)), advancedOptions, DefaultOptions(l, t));
      localOptions := relevant;
      localPrefix := prefix;
      localSuffix := suffix;
    }

    /** handleOptionChange: only key `k` changes. */
    method HandleOptionChange(k: OptionKey, v: bool)
      modifies this
      ensures localOptions == old(localOptions)[k := v]
      ensures localOptions[k] == v
      ensures forall k' :: k' != k ==> (k' in localOptions <==> k' in old(localOptions))
      ensures forall k' :: k' != k && k' in localOptions ==> localOptions[k'] == old(localOptions)[k']
      ensures open == old(open) && localPrefix == old(localPrefix) && localSuffix == old(localSuffix)
    {
      localOptions := localOptions[k := v];
    }

    /** handleApply: the local values go to the caller unchanged, and the
        dialog closes. */
    method HandleApply() returns (options: OptionMap, prefix: string, suffix: string)
      modifies this
      ensures options == localOptions && prefix == localPrefix && suffix == localSuffix
      ensures !open
      ensures localOptions == old(localOptions) && localPrefix == old(localPrefix) && localSuffix == old(localSuffix)
    {
      options, prefix, suffix := localOptions, localPrefix, localSuffix;
      open := false;
    }
  }
}

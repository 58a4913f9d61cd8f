/**
 * BDB, the builder of the app's dialogs: a mutable record of the dialog's
 * title, texts, options, listeners and a flag word, filled by chained setters.
 * The setters that configure a button, the input field or the option list
 * also OR the matching flag into the flag word.
 *
 * A Context is reduced to whether it is a BaldActivity and to its string
 * resources; listeners, views and starting-index choosers are opaque
 * references.
 */
module DialogBuilder {
  import opened Wrappers

  /** The flag bits of the dialog (constants of the dialog class). */
  const FLAG_POSITIVE: bv32 := 0x1
  const FLAG_NEGATIVE: bv32 := 0x2
  const FLAG_INPUT: bv32 := 0x4
  const FLAG_OPTIONS: bv32 := 0x8
  const FLAG_CUSTOM_NEGATIVE: bv32 := 0x10
  const FLAG_CUSTOM_POSITIVE: bv32 := 0x20

  /** An Android context: whether it is a BaldActivity, and its string resources. */
  datatype Context = Context(id: nat, isBaldActivity: bool, texts: map<int, string>)

  /** The exceptions a setter can throw. */
  datatype Exception =
    | NullPointer        // a resource setter on a builder made from a null context
    | ResourceNotFound   // Resources.NotFoundException for an unknown string id

  /** DialogBoxListener: the shared EMPTY listener or a caller-supplied one. */
  datatype Listener = EmptyListener | Callback(id: nat)

  /** StartingIndexChooser: the default chooser returning 0, or a caller-supplied one. */
  datatype StartingIndexChooser = ZeroIndex | Chooser(id: nat)

  /** context.getText(id), including the dereference of a null context. */
  function GetText(context: Option<Context>, resourceId: int): (r: Result<string, Exception>)
    ensures r.Success? <==> context.Some? && resourceId in context.value.texts
    ensures r.Success? ==> r.value == context.value.texts[resourceId]
    ensures r == Failure(NullPointer) <==> context.None?
  {
    if context.None? then Failure(NullPointer)
    else if resourceId !in context.value.texts then Failure(ResourceNotFound)
    else Success(context.value.texts[resourceId])
  }

  /** Every bit of `held` is set in `word`. */
  predicate Holds(word: bv32, held: bv32) {
    word & held == held
  }

  /** No bit of `bits` is set in `word`. */
  predicate Clear(word: bv32, bits: bv32) {
    word & bits == 0
  }

  /** The flag word after `flags |= flag`. */
  function WithFlag(flags: bv32, flag: bv32): (r: bv32)
    ensures r & flags == flags && r & flag == flag
  {
    flags | flag
  }

  /** WithFlag sets no bit that neither argument has: it is the least word holding both. */
  lemma WithFlagLeast(flags: bv32, flag: bv32, other: bv32)
    requires Holds(other, flags) && Holds(other, flag)
    ensures Holds(other, WithFlag(flags, flag))
  {
  }

  /** Adding a flag twice is adding it once. */
  lemma WithFlagIdempotent(flags: bv32, a: bv32)
    ensures WithFlag(WithFlag(flags, a), a) == WithFlag(flags, a)
  {
  }

  lemma WithFlagTwice(flags: bv32, a: bv32, b: bv32)
    ensures WithFlag(WithFlag(flags, a), b) == (flags | a) | b
  {
  }

  lemma OrCommutes(flags: bv32, a: bv32, b: bv32)
    ensures (flags | a) | b == (flags | b) | a
  {
  }

  /** Adding two flags does not depend on the order. */
  lemma WithFlagCommutative(flags: bv32, a: bv32, b: bv32)
    ensures WithFlag(WithFlag(flags, a), b) == WithFlag(WithFlag(flags, b), a)
  {
    WithFlagTwice(flags, a, b);
    WithFlagTwice(flags, b, a);
    OrCommutes(flags, a, b);
  }

  /** The flag word after a sequence of addFlag calls. */
  function FlagsAfter(flags: bv32, added: seq<bv32>): bv32
    decreases |added|
  {
    if added == [] then flags else WithFlag(FlagsAfter(flags, added[..|added| - 1]), added[|added| - 1])
  }

  /** OR-ing more bits into a word keeps the flags it already holds. */
  lemma WithFlagKeeps(flags: bv32, flag: bv32, held: bv32)
    requires Holds(flags, held)
    ensures Holds(WithFlag(flags, flag), held)
  {
  }

  /** Flags are never lost: the final word holds the initial word. */
  lemma {:induction false} FlagsAfterHoldsInitial(flags: bv32, added: seq<bv32>)
    ensures Holds(FlagsAfter(flags, added), flags)
    decreases |added|
  {
    if added == [] {
      assert Holds(flags, flags);
    } else {
      var prefix := added[..|added| - 1];
      FlagsAfterHoldsInitial(flags, prefix);
      WithFlagKeeps(FlagsAfter(flags, prefix), added[|added| - 1], flags);
    }
  }

  /** Flags are never lost: the final word holds every added flag. */
  lemma {:induction false} FlagsAfterHoldsAdded(flags: bv32, added: seq<bv32>, i: nat)
    requires i < |added|
    ensures Holds(FlagsAfter(flags, added), added[i])
    decreases |added|
  {
    var prefix := added[..|added| - 1];
    if i < |added| - 1 {
      FlagsAfterHoldsAdded(flags, prefix, i);
      WithFlagKeeps(FlagsAfter(flags, prefix), added[|added| - 1], prefix[i]);
    }
  }

  lemma WithFlagClear(flags: bv32, flag: bv32, bits: bv32)
    requires Clear(flags, bits) && Clear(flag, bits)
    ensures Clear(WithFlag(flags, flag), bits)
  {
  }

  /** Bits that neither the initial word nor any added flag has stay clear. */
  lemma {:induction false} FlagsAfterAddsNothingElse(flags: bv32, added: seq<bv32>, bits: bv32)
    requires Clear(flags, bits)
    requires forall i :: 0 <= i < |added| ==> Clear(added[i], bits)
    ensures Clear(FlagsAfter(flags, added), bits)
    decreases |added|
  {
    if added != [] {
      var prefix := added[..|added| - 1];
      assert forall i :: 0 <= i < |prefix| ==> prefix[i] == added[i];
      FlagsAfterAddsNothingElse(flags, prefix, bits);
      WithFlagClear(FlagsAfter(flags, prefix), added[|added| - 1], bits);
    }
  }

  /** Swapping two neighbouring addFlag calls gives the same word. */
  lemma {:induction false} FlagsAfterSwap(flags: bv32, prefix: seq<bv32>, a: bv32, b: bv32, suffix: seq<bv32>)
    ensures FlagsAfter(flags, prefix + [a, b] + suffix) == FlagsAfter(flags, prefix + [b, a] + suffix)
    decreases |suffix|
  {
    var left, right := prefix + [a, b] + suffix, prefix + [b, a] + suffix;
    if suffix == [] {
      assert left[..|left| - 1] == prefix + [a];
      assert right[..|right| - 1] == prefix + [b];
      assert (prefix + [a])[..|prefix|] == prefix;
      assert (prefix + [b])[..|prefix|] == prefix;
      WithFlagCommutative(FlagsAfter(flags, prefix), a, b);
    } else {
      var shorter := suffix[..|suffix| - 1];
      assert left[..|left| - 1] == prefix + [a, b] + shorter;
      assert right[..|right| - 1] == prefix + [b, a] + shorter;
      FlagsAfterSwap(flags, prefix, a, b, shorter);
    }
  }

  class BDB {
    var context: Option<Context>
    var title: string
    var subText: Option<string>
    var options: Option<seq<string>>
    var inputType: int
    var positiveButtonListener: Option<Listener>
    var negativeButtonListener: Option<Listener>
    var startingIndexChooser: StartingIndexChooser
    var baldActivityToAutoDismiss: Option<Context>
    var extraView: Option<nat>
    var negativeCustomText: Option<string>
    var positiveCustomText: Option<string>
    var flags: bv32

    /** The activity to auto-dismiss, when set, is a BaldActivity. */
    ghost predicate Valid()
      reads this
    {
      baldActivityToAutoDismiss.Some? ==> baldActivityToAutoDismiss.value.isBaldActivity
    }

    /** BDB.from(context): defaults, and auto-dismiss of the context when it is a BaldActivity. */
    constructor From(context: Option<Context>)
      ensures Valid()
      ensures this.context == context
      ensures title == "" && subText.None? && options.None? && inputType == 0
      ensures positiveButtonListener == Some(EmptyListener) && negativeButtonListener == Some(EmptyListener)
      ensures startingIndexChooser == ZeroIndex
      ensures baldActivityToAutoDismiss == if context.Some? && context.value.isBaldActivity then context else None
      ensures extraView.None? && negativeCustomText.None? && positiveCustomText.None?
      ensures flags == 0
    {
      this.context := context;
      title := "";
      subText := None;
      options := None;
      inputType := 0;
      positiveButtonListener := Some(EmptyListener);
      negativeButtonListener := Some(EmptyListener);
      startingIndexChooser := ZeroIndex;
      baldActivityToAutoDismiss := if context.Some? && context.value.isBaldActivity then context else None;
      extraView := None;
      negativeCustomText := None;
      positiveCustomText := None;
      flags := 0;
    }

    method SetTitle(title: string)
      modifies this`title
      ensures this.title == title
    {
      this.title := title;
    }

    /** setTitle(@StringRes int): throws, changing nothing, when the text cannot be read. */
    method SetTitleById(titleId: int) returns (thrown: Option<Exception>)
      modifies this`title
      ensures thrown.None? <==> GetText(context, titleId).Success?
      ensures thrown.Some? ==> thrown.value == GetText(context, titleId).error && title == old(title)
      ensures thrown.None? ==> title == GetText(context, titleId).value
    {
      var text := GetText(context, titleId);
      if text.Failure? {
        return Some(text.error);
      }
      SetTitle(text.value);
      thrown := None;
    }

    /** setSubText(CharSequence): store the sub-text; null (None) clears it. */
    method SetSubText(subText: Option<string>)
      modifies this`subText
      ensures this.subText == subText
    {
      this.subText := subText;
    }

    /** setSubText(@StringRes int): throws, changing nothing, when the text cannot be read. */
    method SetSubTextById(subTextId: int) returns (thrown: Option<Exception>)
      modifies this`subText
      ensures thrown.None? <==> GetText(context, subTextId).Success?
      ensures thrown.Some? ==> thrown.value == GetText(context, subTextId).error && subText == old(subText)
      ensures thrown.None? ==> subText == Some(GetText(context, subTextId).value)
    {
      var text := GetText(context, subTextId);
      if text.Failure? {
        return Some(text.error);
      }
      SetSubText(Some(text.value));
      thrown := None;
    }

    /** setOptions(CharSequence...): store the options and raise FLAG_OPTIONS. */
    method SetOptions(options: seq<string>)
      modifies this`options, this`flags
      ensures this.options == Some(options)
      ensures flags == WithFlag(old(flags), FLAG_OPTIONS)
    {
      flags := WithFlag(flags, FLAG_OPTIONS);
      this.options := Some(options);
    }

    /**
     * setOptions(@StringRes int...): read every text first; the first unreadable
     * one throws before anything is stored.
     */
    method SetOptionsByIds(optionIds: seq<int>) returns (thrown: Option<Exception>)
      modifies this`options, this`flags
      ensures thrown.None? <==> forall i :: 0 <= i < |optionIds| ==> GetText(context, optionIds[i]).Success?
      ensures thrown.Some? ==>
                && options == old(options) && flags == old(flags)
                && exists i :: 0 <= i < |optionIds| && GetText(context, optionIds[i]) == Failure(thrown.value)
      ensures thrown.None? ==>
                && options.Some? && |options.value| == |optionIds|
                && (forall i :: 0 <= i < |optionIds| ==> options.value[i] == GetText(context, optionIds[i]).value)
                && flags == WithFlag(old(flags), FLAG_OPTIONS)
    {
      var charSequences := new string[|optionIds|];
      for i := 0 to |optionIds|
        invariant options == old(options) && flags == old(flags)
        invariant forall k :: 0 <= k < i ==> GetText(context, optionIds[k]).Success?
        invariant forall k :: 0 <= k < i ==> charSequences[k] == GetText(context, optionIds[k]).value
      {
        var text := GetText(context, optionIds[i]);
        if text.Failure? {
          return Some(text.error);
        }
        charSequences[i] := text.value;
      }
      SetOptions(charSequences[..]);
      thrown := None;
    }

    method SetPositiveButtonListener(listener: Option<Listener>)
      modifies this`positiveButtonListener, this`flags
      ensures positiveButtonListener == listener
      ensures flags == WithFlag(old(flags), FLAG_POSITIVE)
    {
      positiveButtonListener := listener;
      AddFlag(FLAG_POSITIVE);
    }

    method SetNegativeButtonListener(listener: Option<Listener>)
      modifies this`negativeButtonListener, this`flags
      ensures negativeButtonListener == listener
      ensures flags == WithFlag(old(flags), FLAG_NEGATIVE)
    {
      negativeButtonListener := listener;
      AddFlag(FLAG_NEGATIVE);
    }

    method SetInputType(inputType: int)
      modifies this`inputType, this`flags
      ensures this.inputType == inputType
      ensures flags == WithFlag(old(flags), FLAG_INPUT)
    {
      this.inputType := inputType;
      AddFlag(FLAG_INPUT);
    }

    /** Choosing the starting option changes no flag. */
    method SetOptionsStartingIndex(chooser: StartingIndexChooser)
      modifies this`startingIndexChooser
      ensures startingIndexChooser == chooser
    {
      startingIndexChooser := chooser;
    }

    method SetExtraView(extraView: Option<nat>)
      modifies this`extraView
      ensures this.extraView == extraView
    {
      this.extraView := extraView;
    }

    method SetBaldActivityToAutoDismiss(activity: Option<Context>)
      requires Valid()
      requires activity.Some? ==> activity.value.isBaldActivity
      modifies this`baldActivityToAutoDismiss
      ensures Valid()
      ensures baldActivityToAutoDismiss == activity
    {
      baldActivityToAutoDismiss := activity;
    }

    /** setNegativeCustomText: throws, changing nothing, when the text cannot be read. */
    method SetNegativeCustomText(textId: int) returns (thrown: Option<Exception>)
      modifies this`negativeCustomText, this`flags
      ensures thrown.None? <==> GetText(context, textId).Success?
      ensures thrown.Some? ==>
                thrown.value == GetText(context, textId).error &&
                negativeCustomText == old(negativeCustomText) && flags == old(flags)
      ensures thrown.None? ==>
                negativeCustomText == Some(GetText(context, textId).value) &&
                flags == WithFlag(old(flags), FLAG_CUSTOM_NEGATIVE)
    {
      var text := GetText(context, textId);
      if text.Failure? {
        return Some(text.error);
      }
      negativeCustomText := Some(text.value);
      AddFlag(FLAG_CUSTOM_NEGATIVE);
      thrown := None;
    }

    /** setPositiveCustomText: throws, changing nothing, when the text cannot be read. */
    method SetPositiveCustomText(textId: int) returns (thrown: Option<Exception>)
      modifies this`positiveCustomText, this`flags
      ensures thrown.None? <==> GetText(context, textId).Success?
      ensures thrown.Some? ==>
                thrown.value == GetText(context, textId).error &&
                positiveCustomText == old(positiveCustomText) && flags == old(flags)
      ensures thrown.None? ==>
                positiveCustomText == Some(GetText(context, textId).value) &&
                flags == WithFlag(old(flags), FLAG_CUSTOM_POSITIVE)
    {
      var text := GetText(context, textId);
      if text.Failure? {
        return Some(text.error);
      }
      positiveCustomText := Some(text.value);
      AddFlag(FLAG_CUSTOM_POSITIVE);
      thrown := None;
    }

    method AddFlag(flag: bv32)
      modifies this`flags
      ensures flags == WithFlag(old(flags), flag)
    {
      flags := WithFlag(flags, flag);
    }
  }

  /** A typical chain: a yes/no dialog with custom texts, built from a BaldActivity. */
  method YesNoDialogScenario()
  {
    var yes, no := 1, 2;
    var activity := Context(7, true, map[yes := "Yes", no := "No"]);
    var bdb := new BDB.From(Some(activity));
    bdb.SetTitle("Delete contact?");
    bdb.SetPositiveButtonListener(Some(Callback(1)));
    bdb.SetNegativeButtonListener(Some(EmptyListener));
    var thrown := bdb.SetPositiveCustomText(yes);
    assert thrown.None? && bdb.positiveCustomText == Some("Yes");
    assert bdb.flags == FLAG_POSITIVE | FLAG_NEGATIVE | FLAG_CUSTOM_POSITIVE;
    assert Clear(bdb.flags, FLAG_INPUT);
    assert bdb.baldActivityToAutoDismiss == Some(activity);
  }
}

/**
 * `DictionaryManager` of polyglot/managers.py: the fallback rule applied to every
 * translation attempt, and the counters it keeps while a JSON tree or a PO catalog
 * is walked. The translation client is the parameter `translate`; what it returns
 * counts as a translation only when it is present and non-empty (Python truthiness).
 */
module Dictionary {
  import opened Wrappers

  /** A call to the translation API with the languages already fixed: `None` is a failure. */
  type Translator = string -> Option<string>

  /** Whether the client's answer is truthy, that is, usable as a translation. */
  predicate IsTranslation(t: Option<string>) {
    t.Some? && t.value != ""
  }

  /**
   * The value `translate_and_handle` returns: the translation when it is truthy, the
   * original entry otherwise. It is empty only when the entry was.
   */
  function Fallback(t: Option<string>, entry: string): (r: string)
    ensures IsTranslation(t) ==> r == t.value
    ensures !IsTranslation(t) ==> r == entry
    ensures r == "" ==> entry == ""
  {
    if IsTranslation(t) then t.value else entry
  }

  /** How many of `entries`, translated one by one, fall back to the original. */
  function CountFailed(entries: seq<string>, translate: Translator): nat {
    if entries == [] then 0
    else
      var last := entries[|entries| - 1];
      CountFailed(entries[..|entries| - 1], translate) + (if IsTranslation(translate(last)) then 0 else 1)
  }

  lemma {:induction false} CountFailedAppend(a: seq<string>, b: seq<string>, translate: Translator)
    ensures CountFailed(a + b, translate) == CountFailed(a, translate) + CountFailed(b, translate)
    decreases |b|
  {
    if b != [] {
      var b' := b[..|b| - 1];
      assert (a + b)[..|a + b| - 1] == a + b';
      CountFailedAppend(a, b', translate);
      assert (a + b)[|a + b| - 1] == b[|b| - 1];
    } else {
      assert a + b == a;
    }
  }

  /** No entry falls back exactly when every entry gets a truthy translation. */
  lemma {:induction false} CountFailedZero(entries: seq<string>, translate: Translator)
    ensures CountFailed(entries, translate) == 0 <==>
            forall i :: 0 <= i < |entries| ==> IsTranslation(translate(entries[i]))
  {
    if entries != [] {
      var init := entries[..|entries| - 1];
      CountFailedZero(init, translate);
      assert forall i :: 0 <= i < |init| ==> init[i] == entries[i];
    }
  }

  /** At most every entry falls back. */
  lemma {:induction false} CountFailedBound(entries: seq<string>, translate: Translator)
    ensures CountFailed(entries, translate) <= |entries|
  {
    if entries != [] {
      CountFailedBound(entries[..|entries| - 1], translate);
    }
  }

  /** The values handed to `progress_bar.update` after `n` completions: 1, 2, ..., n. */
  function ProgressValues(n: nat): seq<int> {
    seq(n, i requires 0 <= i < n => i + 1)
  }

  /** The state a dictionary manager keeps while it translates. */
  class DictionaryManager {
    var completionCount: nat
    var notTranslatedCount: nat
    /** Every value passed to `progress_bar.update`, in order. */
    var progressUpdates: seq<int>

    /** The progress bar has been moved once per completion, to the running count. */
    ghost predicate Valid()
      reads this
    {
      progressUpdates == ProgressValues(completionCount)
    }

    constructor ()
      ensures Valid()
      ensures completionCount == 0 && notTranslatedCount == 0 && progressUpdates == []
    {
      completionCount := 0;
      notTranslatedCount := 0;
      progressUpdates := [];
    }

    /** `translate_and_handle`: one translation attempt, counted when it fails. */
    method TranslateAndHandle(entry: string, translate: Translator) returns (r: string)
      modifies this
      ensures r == Fallback(translate(entry), entry)
      ensures notTranslatedCount == old(notTranslatedCount) + (if IsTranslation(translate(entry)) then 0 else 1)
      ensures completionCount == old(completionCount) && progressUpdates == old(progressUpdates)
    {
      var translation := translate(entry);
      if !IsTranslation(translation) {
        notTranslatedCount := notTranslatedCount + 1;
      }
      r := if IsTranslation(translation) then translation.value else entry;
    }

    /** `completion_count += 1` followed by `progress_bar.update(completion_count)`. */
    method Complete()
      requires Valid()
      modifies this
      ensures Valid()
      ensures completionCount == old(completionCount) + 1
      ensures progressUpdates == old(progressUpdates) + [completionCount]
      ensures notTranslatedCount == old(notTranslatedCount)
    {
      completionCount := completionCount + 1;
      progressUpdates := progressUpdates + [completionCount];
    }
  }
}

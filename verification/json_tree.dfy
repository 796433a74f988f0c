/**
 * `JSONManager` of polyglot/managers.py: a JSON document is a tree of objects whose
 * non-object values (the leaves) are translated in place. Objects keep their keys in
 * document order, as Python's `dict` does after `json.load`.
 */
module JsonTree {
  import opened Wrappers
  import opened Paths
  import opened Dictionary

  /** A JSON value: a translatable leaf, or an object with its members in order. */
  datatype Json = Leaf(text: string) | Obj(members: seq<(string, Json)>)

  /** The key-value pairs of one object. */
  type Members = seq<(string, Json)>

  function Sum(s: seq<nat>): nat {
    if s == [] then 0 else Sum(s[..|s| - 1]) + s[|s| - 1]
  }

  /** `get_number_of_translations`: a leaf counts one, an object the sum over its values. */
  function LeafCount(j: Json): nat
    decreases j, 1
  {
    match j
    case Leaf(_) => 1
    case Obj(ms) => Sum(MemberCounts(ms))
  }

  /** The leaf count of each value of an object, in member order. */
  function MemberCounts(ms: Members): seq<nat>
    decreases Obj(ms), 0
  {
    seq(|ms|, i requires 0 <= i < |ms| => LeafCount(ms[i].1))
  }

  function Flatten(ss: seq<seq<string>>): seq<string> {
    if ss == [] then [] else Flatten(ss[..|ss| - 1]) + ss[|ss| - 1]
  }

  /** The leaf texts of a tree, at every depth, in the order the walk visits them. */
  function Leaves(j: Json): seq<string>
    decreases j, 1
  {
    match j
    case Leaf(v) => [v]
    case Obj(ms) => Flatten(MemberLeaves(ms))
  }

  /** The leaves under each value of an object, in member order. */
  function MemberLeaves(ms: Members): seq<seq<string>>
    decreases Obj(ms), 0
  {
    seq(|ms|, i requires 0 <= i < |ms| => Leaves(ms[i].1))
  }

  /** The tree `translate_content` leaves behind: every leaf replaced by its fallback translation. */
  function TranslateTree(j: Json, translate: Translator): Json
    decreases j, 1
  {
    match j
    case Leaf(v) => Leaf(Fallback(translate(v), v))
    case Obj(ms) => Obj(TranslatedMembers(ms, translate))
  }

  /** The members of a translated object: same keys, same order, translated values. */
  function TranslatedMembers(ms: Members, translate: Translator): Members
    decreases Obj(ms), 0
  {
    seq(|ms|, i requires 0 <= i < |ms| => (ms[i].0, TranslateTree(ms[i].1, translate)))
  }

  /** Two trees with the same nesting and the same keys in the same order; leaf texts may differ. */
  predicate SameShape(a: Json, b: Json)
    decreases a
  {
    match (a, b)
    case (Leaf(_), Leaf(_)) => true
    case (Obj(x), Obj(y)) =>
      |x| == |y| && forall i :: 0 <= i < |x| ==> x[i].0 == y[i].0 && SameShape(x[i].1, y[i].1)
    case _ => false
  }

  /** Each text replaced by its fallback translation. */
  function FallbackAll(s: seq<string>, translate: Translator): (r: seq<string>)
    ensures |r| == |s|
  {
    seq(|s|, i requires 0 <= i < |s| => Fallback(translate(s[i]), s[i]))
  }

  lemma {:induction false} SumFlatten(counts: seq<nat>, ss: seq<seq<string>>)
    requires |counts| == |ss|
    requires forall i :: 0 <= i < |ss| ==> counts[i] == |ss[i]|
    ensures Sum(counts) == |Flatten(ss)|
    decreases |ss|
  {
    if ss != [] {
      SumFlatten(counts[..|counts| - 1], ss[..|ss| - 1]);
    }
  }

  /** The count taken before the walk is the number of non-object values at every depth. */
  lemma {:induction false} LeafCountIsLeaves(j: Json)
    ensures LeafCount(j) == |Leaves(j)|
    decreases j
  {
    match j
    case Leaf(_) =>
    case Obj(ms) =>
      forall i | 0 <= i < |ms|
        ensures MemberCounts(ms)[i] == |MemberLeaves(ms)[i]|
      {
        LeafCountIsLeaves(ms[i].1);
      }
      SumFlatten(MemberCounts(ms), MemberLeaves(ms));
  }

  /** Translation keeps every key, the key order and the nesting. */
  lemma {:induction false} TranslateKeepsShape(j: Json, translate: Translator)
    ensures SameShape(j, TranslateTree(j, translate))
    decreases j
  {
    match j
    case Leaf(_) =>
    case Obj(ms) =>
      forall i | 0 <= i < |ms|
        ensures SameShape(ms[i].1, TranslateTree(ms[i].1, translate))
      {
        TranslateKeepsShape(ms[i].1, translate);
      }
  }

  lemma FallbackAllAppend(a: seq<string>, b: seq<string>, translate: Translator)
    ensures FallbackAll(a + b, translate) == FallbackAll(a, translate) + FallbackAll(b, translate)
  {
  }

  lemma {:induction false} FlattenFallback(ss: seq<seq<string>>, tt: seq<seq<string>>, translate: Translator)
    requires |ss| == |tt|
    requires forall i :: 0 <= i < |ss| ==> tt[i] == FallbackAll(ss[i], translate)
    ensures Flatten(tt) == FallbackAll(Flatten(ss), translate)
    decreases |ss|
  {
    if ss != [] {
      var n := |ss| - 1;
      FlattenFallback(ss[..n], tt[..n], translate);
      FallbackAllAppend(Flatten(ss[..n]), ss[n], translate);
    }
  }

  /** Only the leaves change, each to its translation when that is truthy and to itself otherwise. */
  lemma {:induction false} TranslatedLeaves(j: Json, translate: Translator)
    ensures Leaves(TranslateTree(j, translate)) == FallbackAll(Leaves(j), translate)
    decreases j
  {
    match j
    case Leaf(v) =>
    case Obj(ms) =>
      var tms := TranslatedMembers(ms, translate);
      forall i | 0 <= i < |ms|
        ensures MemberLeaves(tms)[i] == FallbackAll(MemberLeaves(ms)[i], translate)
      {
        TranslatedLeaves(ms[i].1, translate);
      }
      FlattenFallback(MemberLeaves(ms), MemberLeaves(tms), translate);
  }

  /** A tree no leaf of which can be translated comes back unchanged. */
  lemma {:induction false} UntranslatableTreeUnchanged(j: Json, translate: Translator)
    requires forall i :: 0 <= i < |Leaves(j)| ==> !IsTranslation(translate(Leaves(j)[i]))
    ensures TranslateTree(j, translate) == j
    decreases j
  {
    match j
    case Leaf(v) =>
      assert Leaves(j)[0] == v;
    case Obj(ms) =>
      forall i | 0 <= i < |ms|
        ensures TranslateTree(ms[i].1, translate) == ms[i].1
      {
        LeavesOfMember(ms, i);
        var before := Flatten(MemberLeaves(ms)[..i]);
        forall k | 0 <= k < |Leaves(ms[i].1)|
          ensures !IsTranslation(translate(Leaves(ms[i].1)[k]))
        {
          assert Leaves(j)[|before| + k] == Leaves(ms[i].1)[k];
        }
        UntranslatableTreeUnchanged(ms[i].1, translate);
      }
      assert TranslatedMembers(ms, translate) == ms;
  }

  lemma {:induction false} FlattenPrefix(ss: seq<seq<string>>, i: nat)
    requires i < |ss|
    ensures Flatten(ss) == Flatten(ss[..i]) + ss[i] + Flatten(ss[i + 1..])
    decreases |ss|
  {
    var n := |ss| - 1;
    if i < n {
      FlattenPrefix(ss[..n], i);
      assert ss[..n][..i] == ss[..i];
      assert ss[..n][i + 1..] == ss[i + 1..n];
      assert ss[i + 1..] == ss[i + 1..n] + [ss[n]];
      assert ss[i + 1..][..|ss[i + 1..]| - 1] == ss[i + 1..n];
    } else {
      assert ss[i + 1..] == [];
    }
  }

  /** The leaves of member `i` sit in the object's leaves right after those of the members before it. */
  lemma LeavesOfMember(ms: Members, i: nat)
    requires i < |ms|
    ensures Leaves(Obj(ms)) == Flatten(MemberLeaves(ms)[..i]) + Leaves(ms[i].1) + Flatten(MemberLeaves(ms)[i + 1..])
  {
    FlattenPrefix(MemberLeaves(ms), i);
  }

  /** What `JSONManager.translate_source_file` writes and reports. */
  datatype JsonOutput = JsonOutput(path: string, document: Members, progressMax: nat, notTranslated: nat)

  class JSONManager {
    const config: ManagerConfig
    const translate: Translator
    /** The counters and progress bar of the `DictionaryManager` part of this manager. */
    const counters: DictionaryManager
    /** The members of the loaded document's top-level object. */
    var content: Members

    constructor (config: ManagerConfig, translate: Translator)
      ensures this.config == config && this.translate == translate
      ensures fresh(counters) && counters.Valid()
      ensures counters.completionCount == 0 && counters.notTranslatedCount == 0
      ensures content == []
    {
      this.config := config;
      this.translate := translate;
      counters := new DictionaryManager();
      content := [];
    }

    /** `load_source_content`, given what `json.load` parsed. */
    method LoadSourceContent(document: Members)
      modifies this
      ensures content == document
    {
      content := document;
    }

    /** `get_number_of_translations` of the whole document. */
    function GetNumberOfTranslations(): (n: nat)
      reads this
      ensures n == |Leaves(Obj(content))|
    {
      LeafCountIsLeaves(Obj(content));
      LeafCount(Obj(content))
    }

    /**
     * `translate_content` on one object: every leaf is passed through
     * `translate_and_handle` and counted, every nested object is walked in turn.
     */
    method TranslateMembers(ms: Members) returns (out: Members)
      requires counters.Valid()
      modifies counters
      ensures counters.Valid()
      ensures out == TranslatedMembers(ms, translate)
      ensures counters.completionCount == old(counters.completionCount) + LeafCount(Obj(ms))
      ensures counters.notTranslatedCount == old(counters.notTranslatedCount) + CountFailed(Leaves(Obj(ms)), translate)
      decreases Obj(ms)
    {
      out := ms;
      for i := 0 to |ms|
        invariant |out| == |ms|
        invariant forall k :: 0 <= k < i ==> out[k] == (ms[k].0, TranslateTree(ms[k].1, translate))
        invariant forall k :: i <= k < |ms| ==> out[k] == ms[k]
        invariant counters.Valid()
        invariant counters.completionCount == old(counters.completionCount) + Sum(MemberCounts(ms)[..i])
        invariant counters.notTranslatedCount ==
                  old(counters.notTranslatedCount) + CountFailed(Flatten(MemberLeaves(ms)[..i]), translate)
      {
        var (key, value) := ms[i];
        if value.Obj? {
          var nested := TranslateMembers(value.members);
          out := out[i := (key, Obj(nested))];
        } else {
          var translated := counters.TranslateAndHandle(value.text, translate);
          out := out[i := (key, Leaf(translated))];
          counters.Complete();
        }
        assert MemberCounts(ms)[..i + 1][..i] == MemberCounts(ms)[..i];
        assert MemberLeaves(ms)[..i + 1][..i] == MemberLeaves(ms)[..i];
        CountFailedAppend(Flatten(MemberLeaves(ms)[..i]), Leaves(value), translate);
      }
      assert MemberCounts(ms)[..|ms|] == MemberCounts(ms);
      assert MemberLeaves(ms)[..|ms|] == MemberLeaves(ms);
    }

    /** `translate_content` called without an argument: the whole document. */
    method TranslateContent()
      requires counters.Valid()
      modifies this, counters
      ensures counters.Valid()
      ensures content == TranslatedMembers(old(content), translate)
      ensures counters.completionCount == old(counters.completionCount) + LeafCount(Obj(old(content)))
      ensures counters.notTranslatedCount ==
              old(counters.notTranslatedCount) + CountFailed(Leaves(Obj(old(content))), translate)
    {
      content := TranslateMembers(content);
    }

    /**
     * `DictionaryManager.translate_source_file` for JSON: load, size the progress bar,
     * translate, write the document to the target file.
     */
    method TranslateSourceFile(document: Members) returns (out: JsonOutput)
      requires counters.Valid() && counters.completionCount == 0 && counters.notTranslatedCount == 0
      modifies this, counters
      ensures out.path == TargetFile(config)
      ensures out.document == content == TranslatedMembers(document, translate)
      ensures out.progressMax == LeafCount(Obj(document)) == |Leaves(Obj(document))|
      ensures counters.completionCount == out.progressMax
      ensures counters.progressUpdates == ProgressValues(out.progressMax)
      ensures out.notTranslated == counters.notTranslatedCount == CountFailed(Leaves(Obj(document)), translate)
    {
      LoadSourceContent(document);
      var total := GetNumberOfTranslations();
      LeafCountIsLeaves(Obj(document));
      TranslateContent();
      out := JsonOutput(TargetFile(config), content, total, counters.notTranslatedCount);
    }
  }

  // The source tests `if not dictionary` to tell the top-level call (no argument) from
  // a nested one. An empty nested object is falsy too, so the walk and the count go
  // back to the whole document there and never finish. The functions below model that
  // test as written, with a fuel bound standing for the recursion limit.

  /** Whether some object below the top level is empty. */
  predicate HasEmptyNested(ms: Members)
    decreases Obj(ms)
  {
    exists i :: 0 <= i < |ms| && ms[i].1.Obj? && (ms[i].1.members == [] || HasEmptyNested(ms[i].1.members))
  }

  /** The sum of a sequence of counts, absent when any count is absent. */
  function SumAll(s: seq<Option<nat>>): Option<nat> {
    if s == [] then Some(0)
    else match (SumAll(s[..|s| - 1]), s[|s| - 1])
      case (Some(a), Some(b)) => Some(a + b)
      case _ => None
  }

  /**
   * `get_number_of_translations(dictionary)` as written, with `root` the whole document;
   * `None` means the recursion did not finish within `fuel` nested calls.
   */
  function CountAsWritten(fuel: nat, root: Members, dictionary: Members): (r: Option<nat>)
    ensures fuel == 0 ==> r.None?
    decreases fuel
  {
    if fuel == 0 then None
    else
      var d := if dictionary == [] then root else dictionary;
      SumAll(seq(|d|, i requires 0 <= i < |d| =>
        if d[i].1.Obj? then CountAsWritten(fuel - 1, root, d[i].1.members) else Some(1)))
  }

  /** As written, an empty (falsy) dictionary argument is counted as the whole document. */
  lemma CountAsWrittenRestarts(fuel: nat, root: Members)
    ensures CountAsWritten(fuel, root, []) == CountAsWritten(fuel, root, root)
  {
  }

  lemma {:induction false} SumAllAbsent(s: seq<Option<nat>>, i: nat)
    requires i < |s| && s[i] == None
    ensures SumAll(s) == None
    decreases |s|
  {
    if i < |s| - 1 {
      SumAllAbsent(s[..|s| - 1], i);
    }
  }

  lemma {:induction false} SumAllPresent(s: seq<Option<nat>>, t: seq<nat>)
    requires |s| == |t|
    requires forall i :: 0 <= i < |s| ==> s[i] == Some(t[i])
    ensures SumAll(s) == Some(Sum(t))
    decreases |s|
  {
    if s != [] {
      SumAllPresent(s[..|s| - 1], t[..|t| - 1]);
    }
  }

  lemma {:induction false} CountAsWrittenDiverges(fuel: nat, root: Members, dictionary: Members)
    requires HasEmptyNested(root)
    requires dictionary == [] || HasEmptyNested(dictionary)
    ensures CountAsWritten(fuel, root, dictionary) == None
    decreases fuel
  {
    if fuel > 0 {
      var d := if dictionary == [] then root else dictionary;
      var i :| 0 <= i < |d| && d[i].1.Obj? && (d[i].1.members == [] || HasEmptyNested(d[i].1.members));
      CountAsWrittenDiverges(fuel - 1, root, d[i].1.members);
      var s := seq(|d|, k requires 0 <= k < |d| =>
        if d[k].1.Obj? then CountAsWritten(fuel - 1, root, d[k].1.members) else Some(1));
      SumAllAbsent(s, i);
    }
  }

  /**
   * With an empty object anywhere below the top level, the count as written never
   * finishes, however deep the recursion may go.
   */
  lemma EmptyNestedObjectNeverCounted(root: Members, fuel: nat)
    requires HasEmptyNested(root)
    ensures CountAsWritten(fuel, root, root) == None
  {
    CountAsWrittenDiverges(fuel, root, root);
  }

  function MaxOf(s: seq<nat>): (m: nat)
    ensures forall i :: 0 <= i < |s| ==> s[i] <= m
  {
    if s == [] then 0 else
      var m := MaxOf(s[..|s| - 1]);
      if s[|s| - 1] > m then s[|s| - 1] else m
  }

  /** How many objects deep the tree goes. */
  function Depth(j: Json): nat
    decreases j
  {
    match j
    case Leaf(_) => 0
    case Obj(ms) => 1 + MaxOf(seq(|ms|, i requires 0 <= i < |ms| => Depth(ms[i].1)))
  }

  /**
   * Without an empty nested object, and given room for its depth, the count as
   * written finishes with `LeafCount`: the corrected count agrees with the source on
   * every document the source can count.
   */
  lemma {:induction false} CountAsWrittenAgrees(fuel: nat, root: Members, dictionary: Members)
    requires !HasEmptyNested(dictionary)
    requires dictionary == [] ==> root == []
    requires fuel > Depth(Obj(dictionary))
    ensures CountAsWritten(fuel, root, dictionary) == Some(LeafCount(Obj(dictionary)))
    decreases fuel
  {
    var d := dictionary;
    var depths := seq(|d|, i requires 0 <= i < |d| => Depth(d[i].1));
    var s := seq(|d|, i requires 0 <= i < |d| =>
      if d[i].1.Obj? then CountAsWritten(fuel - 1, root, d[i].1.members) else Some(1));
    forall i | 0 <= i < |d|
      ensures s[i] == Some(MemberCounts(d)[i])
    {
      if d[i].1.Obj? {
        assert depths[i] <= MaxOf(depths);
        CountAsWrittenAgrees(fuel - 1, root, d[i].1.members);
      }
    }
    SumAllPresent(s, MemberCounts(d));
  }
}

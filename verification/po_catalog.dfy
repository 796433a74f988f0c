/**
 * `POManager` of polyglot/managers.py: a gettext catalog is loaded into a dictionary
 * keyed by message id, each message string is translated once, and the dictionary is
 * written back as a catalog (and its compiled twin). Parsing and saving catalogs is
 * done by a library; the model starts from, and ends with, the entries it carries.
 */
module PoCatalog {
  import opened Wrappers
  import opened Paths
  import opened Dictionary

  /** A source-code reference of an entry: file name and line. */
  type Occurrence = (string, string)

  /** A catalog entry as the library parses it or is given it to save. */
  datatype PoEntry = PoEntry(msgid: string, msgstr: string, occurrences: seq<Occurrence>)

  /** What the dictionary holds for one message id. */
  datatype PoValue = PoValue(msgstr: string, occurrences: seq<Occurrence>)

  /**
   * A Python `dict` from message id to value: `keys` in insertion order, each once,
   * exactly the keys of `values`.
   */
  datatype PoDict = PoDict(keys: seq<string>, values: map<string, PoValue>) {
    predicate Valid() {
      (forall i, j :: 0 <= i < j < |keys| ==> keys[i] != keys[j]) &&
      (forall k :: k in values ==> k in keys) &&
      (forall k :: k in keys ==> k in values)
    }

    /** `d[k] = v`: a new key goes last, an existing key keeps its place. */
    function Put(k: string, v: PoValue): (d: PoDict)
      requires Valid()
      ensures d.Valid()
      ensures d.values == values[k := v]
      ensures k in values ==> d.keys == keys
      ensures k !in values ==> d.keys == keys + [k]
    {
      PoDict(if k in values then keys else keys + [k], values[k := v])
    }
  }

  const Empty: PoDict := PoDict([], map[])

  /** The value `load_source_content` stores for an entry: an empty message string defaults to the id. */
  function Normalise(e: PoEntry): (v: PoValue)
    ensures v.occurrences == e.occurrences
    ensures v.msgstr == (if e.msgstr == "" then e.msgid else e.msgstr)
  {
    PoValue(if e.msgstr == "" then e.msgid else e.msgstr, e.occurrences)
  }

  /** The dictionary after storing every entry of `catalog`, in order, into `d`. */
  function LoadInto(d: PoDict, catalog: seq<PoEntry>): (r: PoDict)
    requires d.Valid()
    ensures r.Valid()
    ensures d.keys <= r.keys
    ensures forall i :: 0 <= i < |catalog| ==> catalog[i].msgid in r.values
  {
    if catalog == [] then d
    else
      var last := catalog[|catalog| - 1];
      LoadInto(d, catalog[..|catalog| - 1]).Put(last.msgid, Normalise(last))
  }

  /** The dictionary a fresh manager loads from `catalog`. */
  function Load(catalog: seq<PoEntry>): (r: PoDict)
    ensures r.Valid()
  {
    LoadInto(Empty, catalog)
  }

  /** Every message id of the catalog is a key, and nothing else is. */
  lemma {:induction false} LoadKeys(catalog: seq<PoEntry>, k: string)
    ensures k in Load(catalog).values <==> exists i :: 0 <= i < |catalog| && catalog[i].msgid == k
  {
    if catalog != [] {
      var init := catalog[..|catalog| - 1];
      LoadKeys(init, k);
      if k in Load(init).values {
        var i :| 0 <= i < |init| && init[i].msgid == k;
        assert catalog[i].msgid == k;
      }
      if exists i :: 0 <= i < |catalog| && catalog[i].msgid == k {
        var i :| 0 <= i < |catalog| && catalog[i].msgid == k;
        if i < |init| { assert init[i].msgid == k; }
      }
    }
  }

  /** A message id maps to the normalised value of the last entry that carries it. */
  lemma {:induction false} LoadValueOfLastEntry(catalog: seq<PoEntry>, i: nat)
    requires i < |catalog|
    requires forall j :: i < j < |catalog| ==> catalog[j].msgid != catalog[i].msgid
    ensures catalog[i].msgid in Load(catalog).values
    ensures Load(catalog).values[catalog[i].msgid] == Normalise(catalog[i])
  {
    var init := catalog[..|catalog| - 1];
    if i < |init| {
      assert forall j :: i < j < |init| ==> init[j] == catalog[j];
      LoadValueOfLastEntry(init, i);
    }
  }

  /** A catalog whose message ids are all different loads its ids as keys, in catalog order. */
  lemma {:induction false} LoadKeysInOrder(catalog: seq<PoEntry>)
    requires forall i, j :: 0 <= i < j < |catalog| ==> catalog[i].msgid != catalog[j].msgid
    ensures Load(catalog).keys == seq(|catalog|, i requires 0 <= i < |catalog| => catalog[i].msgid)
  {
    if catalog != [] {
      var init := catalog[..|catalog| - 1];
      var last := catalog[|catalog| - 1];
      LoadKeysInOrder(init);
      LoadKeys(init, last.msgid);
    }
  }

  /** Only an entry whose id is itself empty can hold an empty message string. */
  predicate MsgstrsDefaulted(d: PoDict) {
    forall k :: k in d.values && d.values[k].msgstr == "" ==> k == ""
  }

  lemma {:induction false} LoadDefaultsMsgstrs(catalog: seq<PoEntry>)
    ensures MsgstrsDefaulted(Load(catalog))
  {
    if catalog != [] {
      LoadDefaultsMsgstrs(catalog[..|catalog| - 1]);
    }
  }

  /** A value with its message string passed through the fallback rule. */
  function TranslateValue(v: PoValue, translate: Translator): (r: PoValue)
    ensures r.occurrences == v.occurrences
    ensures r.msgstr == "" ==> v.msgstr == ""
  {
    PoValue(Fallback(translate(v.msgstr), v.msgstr), v.occurrences)
  }

  /** The dictionary `translate_content` leaves behind: same keys, translated message strings. */
  function TranslateDict(d: PoDict, translate: Translator): (r: PoDict)
    requires d.Valid()
    ensures r.Valid() && r.keys == d.keys
    ensures MsgstrsDefaulted(d) ==> MsgstrsDefaulted(r)
  {
    PoDict(d.keys, map k | k in d.values :: TranslateValue(d.values[k], translate))
  }

  /** The message strings stored under `keys`, in key order. */
  function MsgstrsOf(keys: seq<string>, values: map<string, PoValue>): (r: seq<string>)
    requires forall j :: 0 <= j < |keys| ==> keys[j] in values
    ensures |r| == |keys|
  {
    seq(|keys|, i requires 0 <= i < |keys| => values[keys[i]].msgstr)
  }

  /** The message strings of the dictionary, in key order. */
  function Msgstrs(d: PoDict): (r: seq<string>)
    requires d.Valid()
    ensures |r| == |d.keys|
  {
    MsgstrsOf(d.keys, d.values)
  }

  /** The entries `make_translated_files` appends to the new catalog, one per key, in key order. */
  function Emit(d: PoDict): (r: seq<PoEntry>)
    requires d.Valid()
    ensures |r| == |d.keys|
    ensures forall i :: 0 <= i < |r| ==> r[i].msgid == d.keys[i]
    ensures forall i, j :: 0 <= i < j < |r| ==> r[i].msgid != r[j].msgid
  {
    seq(|d.keys|, i requires 0 <= i < |d.keys| =>
      PoEntry(d.keys[i], d.values[d.keys[i]].msgstr, d.values[d.keys[i]].occurrences))
  }

  /**
   * The written catalog loads back into the dictionary it was written from: one entry
   * per key, in key order, each with its message id, message string and occurrences.
   */
  lemma EmitThenLoad(d: PoDict)
    requires d.Valid() && MsgstrsDefaulted(d)
    ensures Load(Emit(d)) == d
  {
    var cat := Emit(d);
    LoadKeysInOrder(cat);
    assert Load(cat).keys == d.keys;
    forall k | k in d.values
      ensures k in Load(cat).values && Load(cat).values[k] == d.values[k]
    {
      var i :| 0 <= i < |d.keys| && d.keys[i] == k;
      LoadValueOfLastEntry(cat, i);
    }
    forall k | k in Load(cat).values
      ensures k in d.values
    {
      LoadKeys(cat, k);
    }
  }

  /** What `POManager.translate_source_file` writes and reports. */
  datatype PoOutput = PoOutput(poPath: string, moPath: string, catalog: seq<PoEntry>,
                               progressMax: nat, notTranslated: nat)

  class POManager {
    const config: ManagerConfig
    const translate: Translator
    /** The counters and progress bar of the `DictionaryManager` part of this manager. */
    const counters: DictionaryManager
    var content: PoDict

    ghost predicate Valid()
      reads this
    {
      content.Valid() && MsgstrsDefaulted(content)
    }

    constructor (config: ManagerConfig, translate: Translator)
      ensures Valid()
      ensures this.config == config && this.translate == translate
      ensures fresh(counters) && counters.Valid()
      ensures counters.completionCount == 0 && counters.notTranslatedCount == 0
      ensures content == Empty
    {
      this.config := config;
      this.translate := translate;
      counters := new DictionaryManager();
      content := Empty;
    }

    /** `load_source_content`: every entry is stored under its message id. */
    method LoadSourceContent(catalog: seq<PoEntry>)
      requires content.Valid()
      modifies this
      ensures content == LoadInto(old(content), catalog)
    {
      for i := 0 to |catalog|
        invariant content.Valid()
        invariant content == LoadInto(old(content), catalog[..i])
      {
        var entry := catalog[i];
        content := content.Put(entry.msgid, Normalise(entry));
        assert catalog[..i + 1][..i] == catalog[..i];
      }
      assert catalog[..|catalog|] == catalog;
    }

    /** `get_number_of_translations`: one per key. */
    function GetNumberOfTranslations(): (n: nat)
      reads this
      requires content.Valid()
      ensures n == |Msgstrs(content)|
    {
      |content.keys|
    }

    /** The loop of `translate_content` over the keys of `values`, in order. */
    method TranslateValues(keys: seq<string>, values: map<string, PoValue>) returns (out: map<string, PoValue>)
      requires forall i, j :: 0 <= i < j < |keys| ==> keys[i] != keys[j]
      requires forall j :: 0 <= j < |keys| ==> keys[j] in values
      requires counters.Valid()
      modifies counters
      ensures counters.Valid()
      ensures out.Keys == values.Keys
      ensures forall j :: 0 <= j < |keys| ==> out[keys[j]] == TranslateValue(values[keys[j]], translate)
      ensures counters.completionCount == old(counters.completionCount) + |keys|
      ensures counters.notTranslatedCount == old(counters.notTranslatedCount) + CountFailed(MsgstrsOf(keys, values), translate)
    {
      ghost var msgstrs := MsgstrsOf(keys, values);
      out := values;
      for i := 0 to |keys|
        invariant out.Keys == values.Keys
        invariant forall j :: 0 <= j < i ==> out[keys[j]] == TranslateValue(values[keys[j]], translate)
        invariant forall j :: i <= j < |keys| ==> out[keys[j]] == values[keys[j]]
        invariant counters.Valid()
        invariant counters.completionCount == old(counters.completionCount) + i
        invariant counters.notTranslatedCount == old(counters.notTranslatedCount) + CountFailed(msgstrs[..i], translate)
      {
        var key := keys[i];
        var value := out[key];
        var translated := counters.TranslateAndHandle(value.msgstr, translate);
        out := out[key := PoValue(translated, value.occurrences)];
        counters.Complete();
        assert msgstrs[..i + 1][..i] == msgstrs[..i];
      }
      assert msgstrs[..|keys|] == msgstrs;
    }

    /** `translate_content`: each message string goes through `translate_and_handle` once. */
    method TranslateContent()
      requires Valid() && counters.Valid()
      modifies this, counters
      ensures Valid() && counters.Valid()
      ensures content == TranslateDict(old(content), translate)
      ensures counters.completionCount == old(counters.completionCount) + |content.keys|
      ensures counters.notTranslatedCount ==
              old(counters.notTranslatedCount) + CountFailed(Msgstrs(old(content)), translate)
    {
      var before := content;
      var values := TranslateValues(content.keys, content.values);
      content := PoDict(content.keys, values);
      forall k | k in values
        ensures values[k] == TranslateValue(before.values[k], translate)
      {
        var j :| 0 <= j < |before.keys| && before.keys[j] == k;
      }
      assert content == TranslateDict(before, translate);
    }

    /**
     * `make_translated_files`: the entries of the new catalog, the catalog path and the
     * compiled catalog path.
     */
    method MakeTranslatedFiles() returns (catalog: seq<PoEntry>, poPath: string, moPath: string)
      requires content.Valid()
      ensures catalog == Emit(content)
      ensures poPath == TargetFile(config) && moPath == MoFile(config)
    {
      catalog := [];
      for i := 0 to |content.keys|
        invariant catalog == Emit(content)[..i]
      {
        var key := content.keys[i];
        var value := content.values[key];
        catalog := catalog + [PoEntry(key, value.msgstr, value.occurrences)];
      }
      poPath := TargetFile(config);
      moPath := MoFile(config);
    }

    /**
     * `DictionaryManager.translate_source_file` for a catalog: load, size the progress
     * bar, translate, write both catalogs.
     */
    method TranslateSourceFile(source: seq<PoEntry>) returns (out: PoOutput)
      requires Valid() && content == Empty
      requires counters.Valid() && counters.completionCount == 0 && counters.notTranslatedCount == 0
      modifies this, counters
      ensures content == TranslateDict(Load(source), translate)
      ensures out.catalog == Emit(content) && Load(out.catalog) == content
      ensures out.poPath == TargetFile(config) && out.moPath == MoFile(config)
      ensures out.progressMax == |Load(source).keys| == counters.completionCount
      ensures counters.progressUpdates == ProgressValues(out.progressMax)
      ensures out.notTranslated == counters.notTranslatedCount == CountFailed(Msgstrs(Load(source)), translate)
    {
      LoadSourceContent(source);
      LoadDefaultsMsgstrs(source);
      var total := GetNumberOfTranslations();
      TranslateContent();
      var catalog, poPath, moPath := MakeTranslatedFiles();
      EmitThenLoad(content);
      out := PoOutput(poPath, moPath, catalog, total, counters.notTranslatedCount);
    }
  }
}
